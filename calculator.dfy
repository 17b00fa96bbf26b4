/** The input state machine of the calculator's App component: the five
    pieces of session state and the four key handlers that update them.
    The number type, the parser of the display text, the printer of a
    result and the remote evaluator are left abstract. */
module Calculator {
  import opened Display

  datatype Option<T> = None | Some(value: T)

  /** What the remote evaluator answers: a number, or a failure of any kind
      (bad operator, division by zero, transport); the caller does not tell
      the kinds apart. */
  datatype Result<T> = Ok(value: T) | Failure

  /** The arguments of one call to the remote evaluator. */
  datatype Call<Num> = Call(operator: string, a: Num, b: Num)

  /** The truth value of the pending operator as a condition: absent and
      the empty string are both false. */
  predicate IsTruthy(op: Option<string>) {
    op.Some? && op.value != ""
  }

  class App<Num> {
    var display: string
    var firstOperand: Option<Num>
    var operator: Option<string>
    var waitingForSecondOperand: bool
    var calculating: bool

    /** Reading the display text as a number, and printing a result. */
    const parse: string -> Num
    const show: Num -> string

    /** Every call made to the remote evaluator, oldest first. */
    ghost var calls: seq<Call<Num>>

    /** The invariant between key presses: an operand is only ever held
        with an operator beside it; while a number is being typed the
        display is a well-formed number; no evaluation is in flight. */
    ghost predicate Valid()
      reads this
    {
      && (firstOperand.Some? ==> operator.Some?)
      && (!waitingForSecondOperand ==> IsNumeral(display))
      && !calculating
    }

    /** The value the display field shows; between key presses it is the
        display itself. */
    function Shown(): (s: string)
      reads this
      ensures Valid() ==> s == display
    {
      if calculating then "Calculating..." else display
    }

    /** A fresh session. */
    constructor (parse: string -> Num, show: Num -> string)
      ensures Valid()
      ensures display == "0" && firstOperand == None && operator == None
      ensures !waitingForSecondOperand && !calculating
      ensures this.parse == parse && this.show == show && calls == []
    {
      display := "0";
      firstOperand := None;
      operator := None;
      waitingForSecondOperand := false;
      calculating := false;
      this.parse := parse;
      this.show := show;
      calls := [];
    }

    /** A digit key. */
    method InputDigit(digit: char)
      requires Valid() && IsDigit(digit)
      modifies this
      ensures Valid()
      ensures !waitingForSecondOperand
      ensures old(waitingForSecondOperand) ==> display == [digit]
      ensures !old(waitingForSecondOperand) && old(display) == "0" ==> display == [digit]
      ensures !old(waitingForSecondOperand) && old(display) != "0" ==> display == old(display) + [digit]
      ensures firstOperand == old(firstOperand) && operator == old(operator)
      ensures calculating == old(calculating) && calls == old(calls)
    {
      if waitingForSecondOperand {
        EnterDigitKeepsNumeral("0", digit);
        display := [digit];
        waitingForSecondOperand := false;
      } else {
        EnterDigitKeepsNumeral(display, digit);
        display := EnterDigit(display, digit);
      }
    }

    /** The decimal-point key. */
    method InputDecimal()
      requires Valid()
      modifies this
      ensures Valid()
      ensures !waitingForSecondOperand
      ensures old(waitingForSecondOperand) ==> display == "0."
      ensures !old(waitingForSecondOperand) && '.' in old(display) ==> display == old(display)
      ensures !old(waitingForSecondOperand) && '.' !in old(display) ==> display == old(display) + "."
      ensures firstOperand == old(firstOperand) && operator == old(operator)
      ensures calculating == old(calculating) && calls == old(calls)
    {
      if waitingForSecondOperand {
        display := "0.";
        waitingForSecondOperand := false;
        return;
      }
      EnterDecimalKeepsNumeral(display);
      display := EnterDecimal(display);
    }

    /** The clear key: back to the values of a fresh session, except for
        the in-flight flag, which it does not touch. */
    method Clear()
      modifies this
      ensures display == "0" && firstOperand == None && operator == None
      ensures !waitingForSecondOperand
      ensures calculating == old(calculating) && calls == old(calls)
      ensures Valid() <==> !calculating
    {
      display := "0";
      firstOperand := None;
      operator := None;
      waitingForSecondOperand := false;
    }

    /** An operator key (one of "+", "-", "*", "/", "="). The display is read
        as a number; with no operand held it becomes the first operand; with
        an operand and an operator held the evaluator is called once, and
        its answer (or "Error") replaces the display. In every case the key
        becomes the pending operator and the next digit starts a new number. */
    method PerformOperation(nextOperator: string, reply: Result<Num>)
      requires Valid()
      modifies this
      ensures Valid()
      ensures waitingForSecondOperand && operator == Some(nextOperator) && !calculating
      // no operand yet: the display becomes the first operand, no call
      ensures old(firstOperand).None? ==>
        && firstOperand == Some(parse(old(display)))
        && display == old(display)
        && calls == old(calls)
      // operand and operator held: exactly one call with these arguments
      ensures old(firstOperand).Some? && IsTruthy(old(operator)) ==>
        calls == old(calls) + [Call(old(operator).value, old(firstOperand).value, parse(old(display)))]
      ensures old(firstOperand).Some? && IsTruthy(old(operator)) && reply.Ok? ==>
        display == show(reply.value) && firstOperand == Some(reply.value)
      ensures old(firstOperand).Some? && IsTruthy(old(operator)) && reply.Failure? ==>
        display == "Error" && firstOperand == old(firstOperand)
      // operand held but the operator is the empty string: nothing but the common tail
      ensures old(firstOperand).Some? && !IsTruthy(old(operator)) ==>
        display == old(display) && firstOperand == old(firstOperand) && calls == old(calls)
    {
      var inputValue := parse(display);
      if firstOperand.None? {
        firstOperand := Some(inputValue);
      } else if IsTruthy(operator) {
        calculating := true;
        calls := calls + [Call(operator.value, firstOperand.value, inputValue)];
        match reply {
          case Ok(result) =>
            display := show(result);
            firstOperand := Some(result);
          case Failure =>
            display := "Error";
        }
        calculating := false;
      }
      waitingForSecondOperand := true;
      operator := Some(nextOperator);
    }
  }

  /** A fresh session, digit x, operator op, digit y, operator next: the
      evaluator is asked for x op y once (unless op is the empty string),
      and its answer or "Error" is shown. */
  method OneCalculation<Num>(parse: string -> Num, show: Num -> string,
                             x: char, op: string, y: char, next: string, reply: Result<Num>)
    returns (display: string, firstOperand: Option<Num>, pending: Option<string>, ghost calls: seq<Call<Num>>)
    requires IsDigit(x) && IsDigit(y)
    ensures pending == Some(next)
    ensures op != "" ==> calls == [Call(op, parse([x]), parse([y]))]
    ensures op != "" && reply.Ok? ==> display == show(reply.value) && firstOperand == Some(reply.value)
    ensures op != "" && reply.Failure? ==> display == "Error" && firstOperand == Some(parse([x]))
    ensures op == "" ==> calls == [] && display == [y] && firstOperand == Some(parse([x]))
  {
    var app := new App(parse, show);
    app.InputDigit(x);
    app.PerformOperation(op, reply);
    app.InputDigit(y);
    app.PerformOperation(next, reply);
    display, firstOperand, pending, calls := app.display, app.firstOperand, app.operator, app.calls;
  }

  /** A fresh session and an operator key straight away: the initial "0"
      becomes the first operand and no evaluation takes place. */
  method OperatorOnFreshSession<Num>(parse: string -> Num, show: Num -> string, op: string, reply: Result<Num>)
    returns (display: string, firstOperand: Option<Num>, waiting: bool, ghost calls: seq<Call<Num>>)
    ensures display == "0" && firstOperand == Some(parse("0")) && waiting && calls == []
  {
    var app := new App(parse, show);
    app.PerformOperation(op, reply);
    display, firstOperand, waiting, calls := app.display, app.firstOperand, app.waitingForSecondOperand, app.calls;
  }

  /** Two presses of the clear key leave the same state as one, from any
      state: once and twice are the display, operand, operator and waiting
      flag after the first and after the second press. */
  method ClearTwice<Num>(app: App<Num>)
    returns (once: (string, Option<Num>, Option<string>, bool),
             twice: (string, Option<Num>, Option<string>, bool))
    modifies app
    ensures once == ("0", None, None, false)
    ensures twice == once
    ensures twice == (app.display, app.firstOperand, app.operator, app.waitingForSecondOperand)
    ensures app.calculating == old(app.calculating) && app.calls == old(app.calls)
  {
    app.Clear();
    once := (app.display, app.firstOperand, app.operator, app.waitingForSecondOperand);
    app.Clear();
    twice := (app.display, app.firstOperand, app.operator, app.waitingForSecondOperand);
  }

  /** A second press of the decimal-point key right after a first one
      changes nothing, from any session state: once and twice are the
      display, operand, operator and waiting flag after each press. */
  method DecimalTwice<Num>(app: App<Num>)
    returns (once: (string, Option<Num>, Option<string>, bool),
             twice: (string, Option<Num>, Option<string>, bool))
    requires app.Valid()
    modifies app
    ensures app.Valid()
    ensures twice == once
    ensures twice == (app.display, app.firstOperand, app.operator, app.waitingForSecondOperand)
    ensures '.' in app.display && !app.waitingForSecondOperand
    ensures app.calculating == old(app.calculating) && app.calls == old(app.calls)
  {
    app.InputDecimal();
    once := (app.display, app.firstOperand, app.operator, app.waitingForSecondOperand);
    app.InputDecimal();
    twice := (app.display, app.firstOperand, app.operator, app.waitingForSecondOperand);
  }
}
