/** The Java string helpers the runner relies on: `StringUtil.isEmptyOrSpaces`,
    which is defined through `String.trim()`, and the decimal rendering of a
    `long` that string concatenation performs. A Java `null` string is modelled
    as the empty string, which every check used here treats the same way. */
module JavaText {

  /** `String.trim()` first drops every leading character whose code is at most
      that of the space character... */
  function TrimStart(s: string): (r: string)
    ensures r == [] || r[0] > ' '
  {
    if |s| > 0 && s[0] <= ' ' then TrimStart(s[1..]) else s
  }

  /** ...then every such trailing character. */
  function TrimEnd(s: string): (r: string)
    ensures r == [] || r[|r| - 1] > ' '
  {
    if |s| > 0 && s[|s| - 1] <= ' ' then TrimEnd(s[..|s| - 1]) else s
  }

  function Trim(s: string): string {
    TrimEnd(TrimStart(s))
  }

  /** `StringUtil.isEmptyOrSpaces`: null, or empty once trimmed. */
  predicate IsEmptyOrSpaces(s: string) {
    |Trim(s)| == 0
  }

  /** The characters `trim()` removes. */
  predicate AllSpaces(s: string) {
    forall i :: 0 <= i < |s| ==> s[i] <= ' '
  }

  lemma {:induction false} TrimStartEmpty(s: string)
    ensures TrimStart(s) == [] <==> AllSpaces(s)
  {
    if |s| > 0 && s[0] <= ' ' {
      TrimStartEmpty(s[1..]);
      assert AllSpaces(s) <==> AllSpaces(s[1..]) by {
        if AllSpaces(s[1..]) {
          forall i | 0 <= i < |s| ensures s[i] <= ' ' {
            if i > 0 { assert s[i] == s[1..][i - 1]; }
          }
        }
      }
    } else if |s| > 0 {
      assert !AllSpaces(s) by { assert s[0] > ' '; }
    }
  }

  /** `TrimStart` keeps a suffix of its argument and drops only characters
      at or below the space. */
  lemma {:induction false} TrimStartDropsSpaces(s: string)
    ensures |TrimStart(s)| <= |s| && TrimStart(s) == s[|s| - |TrimStart(s)|..]
    ensures forall i :: 0 <= i < |s| - |TrimStart(s)| ==> s[i] <= ' '
  {
    if |s| > 0 && s[0] <= ' ' {
      TrimStartDropsSpaces(s[1..]);
      var r := TrimStart(s[1..]);
      assert s[1..][|s| - 1 - |r|..] == s[|s| - |r|..];
      forall i | 1 <= i < |s| - |r| ensures s[i] <= ' ' {
        assert s[i] == s[1..][i - 1];
      }
    }
  }

  /** `TrimEnd` keeps a prefix of its argument and drops only characters at
      or below the space. */
  lemma {:induction false} TrimEndDropsSpaces(s: string)
    ensures |TrimEnd(s)| <= |s| && TrimEnd(s) == s[..|TrimEnd(s)|]
    ensures forall i :: |TrimEnd(s)| <= i < |s| ==> s[i] <= ' '
  {
    if |s| > 0 && s[|s| - 1] <= ' ' {
      var init := s[..|s| - 1];
      TrimEndDropsSpaces(init);
      var r := TrimEnd(init);
      assert init[..|r|] == s[..|r|];
      forall i | |r| <= i < |s| - 1 ensures s[i] <= ' ' {
        assert s[i] == init[i];
      }
    }
  }

  /** Trimming the end never removes a first character that is not a space. */
  lemma {:induction false} TrimEndKeepsFirst(s: string)
    requires |s| > 0 && s[0] > ' '
    ensures TrimEnd(s) != []
  {
    if |s| > 1 && s[|s| - 1] <= ' ' {
      TrimEndKeepsFirst(s[..|s| - 1]);
    }
  }

  /** A string is blank exactly when every character is one `trim()` removes. */
  lemma IsEmptyOrSpacesIffAllSpaces(s: string)
    ensures IsEmptyOrSpaces(s) <==> AllSpaces(s)
  {
    TrimStartEmpty(s);
    var t := TrimStart(s);
    if t != [] {
      TrimEndKeepsFirst(t);
    }
  }

  /** A decimal digit as a character. */
  function DigitChar(d: nat): (c: char)
    requires d < 10
    ensures '0' <= c <= '9'
  {
    ('0' as int + d) as char
  }

  /** The decimal rendering of a non-negative `long`, as `"" + n` gives it. */
  function Decimal(n: nat): (r: string)
    ensures |r| >= 1
    ensures n >= 10 ==> |r| >= 2
    ensures forall i :: 0 <= i < |r| ==> '0' <= r[i] <= '9'
  {
    if n < 10 then [DigitChar(n)] else Decimal(n / 10) + [DigitChar(n % 10)]
  }

  /** Distinct numbers render as distinct strings. */
  lemma {:induction false} DecimalInjective(a: nat, b: nat)
    requires Decimal(a) == Decimal(b)
    ensures a == b
  {
    var s := Decimal(a);
    if a >= 10 && b >= 10 {
      assert Decimal(a / 10) == s[..|s| - 1] == Decimal(b / 10);
      DecimalInjective(a / 10, b / 10);
      assert DigitChar(a % 10) == s[|s| - 1] == DigitChar(b % 10);
    } else if a < 10 && b < 10 {
      assert DigitChar(a) == s[0] == DigitChar(b);
    }
  }
}
