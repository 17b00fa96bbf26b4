/** The text of the calculator's display while the user is typing a number:
    what a digit key and the decimal-point key do to it, and the shape of
    every string those two keys can build from "0". */
module Display {

  predicate IsDigit(c: char) {
    '0' <= c <= '9'
  }

  /** Number of positions of s that hold c. */
  function Occurrences(s: string, c: char): nat {
    if s == [] then 0 else (if s[0] == c then 1 else 0) + Occurrences(s[1..], c)
  }

  /** A number literal as the keypad builds it: starts with a digit, holds
      only digits and at most one point, and has no redundant leading zero
      (a "0" is never followed by another digit at the front). */
  predicate IsNumeral(s: string) {
    && |s| > 0
    && IsDigit(s[0])
    && (forall i :: 0 <= i < |s| ==> IsDigit(s[i]) || s[i] == '.')
    && Occurrences(s, '.') <= 1
    && !(|s| > 1 && s[0] == '0' && IsDigit(s[1]))
  }

  /** The display after digit key d is pressed while a number is being typed:
      a lone "0" gives way to the key, anything else is extended by it. */
  function EnterDigit(s: string, d: char): (r: string)
    ensures |r| > 0 && r[|r| - 1] == d
    ensures s != "0" ==> |r| == |s| + 1 && r[..|s|] == s
    ensures s == "0" ==> r == [d]
  {
    if s == "0" then [d] else s + [d]
  }

  /** The display after the decimal-point key is pressed while a number is
      being typed: a point is added only when there is none yet. */
  function EnterDecimal(s: string): (r: string)
    ensures '.' in r
    ensures '.' in s ==> r == s
    ensures '.' !in s ==> |r| == |s| + 1 && r[..|s|] == s && r[|s|] == '.'
  {
    if '.' in s then s else s + ['.']
  }

  lemma {:induction false} OccurrencesAppend(s: string, x: char, c: char)
    ensures Occurrences(s + [x], c) == Occurrences(s, c) + (if x == c then 1 else 0)
  {
    if s == [] {
      assert s + [x] == [x];
    } else {
      assert (s + [x])[1..] == s[1..] + [x];
      OccurrencesAppend(s[1..], x, c);
    }
  }

  lemma {:induction false} OccurrencesZero(s: string, c: char)
    ensures Occurrences(s, c) == 0 <==> c !in s
  {
    if s != [] {
      OccurrencesZero(s[1..], c);
      assert s == [s[0]] + s[1..];
    }
  }

  /** A digit key keeps a well-formed number well formed. */
  lemma EnterDigitKeepsNumeral(s: string, d: char)
    requires IsNumeral(s) && IsDigit(d)
    ensures IsNumeral(EnterDigit(s, d))
  {
    if s != "0" {
      OccurrencesAppend(s, d, '.');
      var r := s + [d];
      assert forall i :: 0 <= i < |r| ==> IsDigit(r[i]) || r[i] == '.' by {
        forall i | 0 <= i < |r| ensures IsDigit(r[i]) || r[i] == '.' {
          if i < |s| { assert r[i] == s[i]; }
        }
      }
      if |s| == 1 {
        assert s == [s[0]];
      }
    }
  }

  /** The decimal-point key keeps a well-formed number well formed. */
  lemma EnterDecimalKeepsNumeral(s: string)
    requires IsNumeral(s)
    ensures IsNumeral(EnterDecimal(s))
  {
    if '.' !in s {
      OccurrencesZero(s, '.');
      OccurrencesAppend(s, '.', '.');
      var r := s + ['.'];
      assert forall i :: 0 <= i < |r| ==> IsDigit(r[i]) || r[i] == '.' by {
        forall i | 0 <= i < |r| ensures IsDigit(r[i]) || r[i] == '.' {
          if i < |s| { assert r[i] == s[i]; }
        }
      }
    }
  }

  /** A second decimal point right after a first one changes nothing. */
  lemma EnterDecimalTwice(s: string)
    ensures EnterDecimal(EnterDecimal(s)) == EnterDecimal(s)
  {
  }

  /** The display after the digit keys ds are pressed one after another,
      starting from display s. */
  function TypeDigits(s: string, ds: string): string
    decreases |ds|
  {
    if ds == [] then s else TypeDigits(EnterDigit(s, ds[0]), ds[1..])
  }

  /** ds without its leading zeros. */
  function DropLeadingZeros(ds: string): (r: string)
    ensures r == [] || r[0] != '0'
  {
    if ds != [] && ds[0] == '0' then DropLeadingZeros(ds[1..]) else ds
  }

  /** What a fresh display shows after the digits ds: the digits as typed
      with their leading zeros dropped, or "0" when nothing else is left. */
  function Canonical(ds: string): string {
    var t := DropLeadingZeros(ds);
    if t == [] then "0" else t
  }

  /** Once the display is something other than the lone "0", every digit
      key is appended. */
  lemma {:induction false} TypeDigitsAppends(s: string, ds: string)
    requires |s| > 0 && s != "0"
    ensures TypeDigits(s, ds) == s + ds
    decreases |ds|
  {
    if ds != [] {
      var t := EnterDigit(s, ds[0]);
      assert t == s + [ds[0]];
      assert |t| > 1;
      TypeDigitsAppends(t, ds[1..]);
      assert t + ds[1..] == s + ds by {
        assert ds == [ds[0]] + ds[1..];
      }
    }
  }

  /** Typing digits from the initial display "0" shows those digits with
      their leading zeros dropped (or "0" if they are all zeros). */
  lemma {:induction false} TypeDigitsFromZero(ds: string)
    ensures TypeDigits("0", ds) == Canonical(ds)
    decreases |ds|
  {
    if ds != [] {
      if ds[0] == '0' {
        assert EnterDigit("0", ds[0]) == "0";
        TypeDigitsFromZero(ds[1..]);
      } else {
        var t := EnterDigit("0", ds[0]);
        assert t == [ds[0]];
        TypeDigitsAppends(t, ds[1..]);
        assert t + ds[1..] == ds;
      }
    }
  }

  /** Typing digits keeps a well-formed number well formed. */
  lemma {:induction false} TypeDigitsKeepsNumeral(s: string, ds: string)
    requires IsNumeral(s)
    requires forall i :: 0 <= i < |ds| ==> IsDigit(ds[i])
    ensures IsNumeral(TypeDigits(s, ds))
    decreases |ds|
  {
    if ds != [] {
      EnterDigitKeepsNumeral(s, ds[0]);
      assert forall i :: 0 <= i < |ds[1..]| ==> IsDigit(ds[1..][i]) by {
        forall i | 0 <= i < |ds[1..]| ensures IsDigit(ds[1..][i]) {
          assert ds[1..][i] == ds[i + 1];
        }
      }
      TypeDigitsKeepsNumeral(EnterDigit(s, ds[0]), ds[1..]);
    }
  }
}
