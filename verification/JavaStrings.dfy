/** The two pieces of `java.lang.String` behaviour the model relies on:
    `split` with the default limit and a one-character separator that is
    not a regular-expression metacharacter (none of `.$|()[{^?*+\`; the
    model uses only '/'), and the decimal rendering of a non-negative `int` that string
    concatenation performs. */
module JavaStrings {
  import opened Wrappers

  /** Every piece of `s` between occurrences of `sep`, in order, empty pieces
      included (what `split` yields before it drops trailing empty strings).
      Built from the back so that appending a character is one step. */
  function Pieces(s: string, sep: char): (parts: seq<string>)
    ensures |parts| >= 1
    ensures forall i :: 0 <= i < |parts| ==> sep !in parts[i]
    decreases |s|
  {
    if |s| == 0 then [""]
    else
      var init := Pieces(s[..|s| - 1], sep);
      var c := s[|s| - 1];
      if c == sep then init + [""]
      else init[..|init| - 1] + [init[|init| - 1] + [c]]
  }

  /** The pieces glued back together with `sep` between neighbours. */
  function Join(parts: seq<string>, sep: char): string
    requires |parts| >= 1
  {
    if |parts| == 1 then parts[0]
    else Join(parts[..|parts| - 1], sep) + [sep] + parts[|parts| - 1]
  }

  /** `parts` with every trailing empty string removed. */
  function StripTrailingEmpty(parts: seq<string>): (r: seq<string>)
    ensures r <= parts
    ensures r == [] || r[|r| - 1] != ""
    ensures forall i :: |r| <= i < |parts| ==> parts[i] == ""
  {
    if |parts| == 0 then []
    else if parts[|parts| - 1] == "" then StripTrailingEmpty(parts[..|parts| - 1])
    else parts
  }

  /** `s.split(sep)` for a separator character that is not a regex
      metacharacter (the model uses only '/'):
      when the separator does not occur the result is `[s]` (so `""` gives
      `[""]`); otherwise it is the pieces with trailing empty strings
      dropped, which may leave nothing at all. */
  function Split(s: string, sep: char): (parts: seq<string>)
    ensures sep !in s ==> parts == [s]
    ensures forall i :: 0 <= i < |parts| ==> sep !in parts[i]
  {
    if sep !in s then [s] else StripTrailingEmpty(Pieces(s, sep))
  }

  /** The last element of a split, or None for an empty array. */
  function LastElement(parts: seq<string>): Option<string>
  {
    if |parts| == 0 then None else Some(parts[|parts| - 1])
  }

  /** Every character of `s` is the separator. */
  predicate AllSeparators(s: string, sep: char)
  {
    forall i :: 0 <= i < |s| ==> s[i] == sep
  }

  // ---------------------------------------------------------------------
  // Pieces and Join are inverse to each other.

  lemma {:induction false} JoinAppendLast(parts: seq<string>, x: string, sep: char)
    requires |parts| >= 1
    ensures Join(parts[..|parts| - 1] + [parts[|parts| - 1] + x], sep) == Join(parts, sep) + x
  {
    var n := |parts|;
    var q := parts[..n - 1] + [parts[n - 1] + x];
    if n == 1 {
    } else {
      assert q[..n - 1] == parts[..n - 1];
      assert Join(q, sep) == Join(parts[..n - 1], sep) + [sep] + (parts[n - 1] + x);
    }
  }

  lemma JoinAppendEmpty(parts: seq<string>, sep: char)
    requires |parts| >= 1
    ensures Join(parts + [""], sep) == Join(parts, sep) + [sep]
  {
    assert (parts + [""])[..|parts|] == parts;
  }

  /** Joining the pieces of `s` gives back `s`: splitting loses nothing. */
  lemma {:induction false} JoinPieces(s: string, sep: char)
    ensures Join(Pieces(s, sep), sep) == s
    decreases |s|
  {
    if |s| > 0 {
      var s' := s[..|s| - 1];
      var c := s[|s| - 1];
      var init := Pieces(s', sep);
      assert s' + [c] == s;
      JoinPieces(s', sep);
      if c == sep {
        assert Pieces(s, sep) == init + [""];
        JoinAppendEmpty(init, sep);
      } else {
        assert Pieces(s, sep) == init[..|init| - 1] + [init[|init| - 1] + [c]];
        JoinAppendLast(init, [c], sep);
      }
    }
  }

  // ---------------------------------------------------------------------
  // Trailing separators and the empty split.

  lemma PiecesAppendSeparator(s: string, sep: char)
    ensures Pieces(s + [sep], sep) == Pieces(s, sep) + [""]
  {
    assert (s + [sep])[..|s|] == s;
  }

  lemma StripAppendEmpty(parts: seq<string>)
    ensures StripTrailingEmpty(parts + [""]) == StripTrailingEmpty(parts)
  {
    assert (parts + [""])[..|parts|] == parts;
  }

  /** Separators at the end of `s` do not change the split pieces once the
      trailing empty strings are dropped. */
  lemma {:induction false} StripIgnoresTrailingSeparators(s: string, sep: char, end: nat)
    requires end <= |s|
    requires forall k :: end <= k < |s| ==> s[k] == sep
    ensures StripTrailingEmpty(Pieces(s, sep)) == StripTrailingEmpty(Pieces(s[..end], sep))
    decreases |s|
  {
    if end == |s| {
      assert s[..end] == s;
    } else {
      var s' := s[..|s| - 1];
      assert s' + [sep] == s by {
        assert s[|s| - 1] == sep;
      }
      calc {
        StripTrailingEmpty(Pieces(s, sep));
        { PiecesAppendSeparator(s', sep); }
        StripTrailingEmpty(Pieces(s', sep) + [""]);
        { StripAppendEmpty(Pieces(s', sep)); }
        StripTrailingEmpty(Pieces(s', sep));
        { StripIgnoresTrailingSeparators(s', sep, end); assert s'[..end] == s[..end]; }
        StripTrailingEmpty(Pieces(s[..end], sep));
      }
    }
  }

  /** When `s[start..]` holds no separator and `start` begins a piece, the
      last piece of `s` is exactly `s[start..]`. */
  lemma {:induction false} LastPiece(s: string, sep: char, start: nat)
    requires start <= |s|
    requires forall k :: start <= k < |s| ==> s[k] != sep
    requires start == 0 || s[start - 1] == sep
    ensures var p := Pieces(s, sep); p[|p| - 1] == s[start..]
    decreases |s|
  {
    if |s| > start {
      var s' := s[..|s| - 1];
      var c := s[|s| - 1];
      var init := Pieces(s', sep);
      assert c != sep;
      assert Pieces(s, sep) == init[..|init| - 1] + [init[|init| - 1] + [c]];
      LastPiece(s', sep, start);
      assert s'[start..] + [c] == s[start..];
    }
  }

  /** The split is empty exactly when `s` is a non-empty run of separators:
      Java then hands back an array of length zero. */
  lemma SplitEmptyIff(s: string, sep: char)
    ensures |Split(s, sep)| == 0 <==> |s| > 0 && AllSeparators(s, sep)
  {
    if |s| > 0 && AllSeparators(s, sep) {
      assert s[0] == sep;
      StripIgnoresTrailingSeparators(s, sep, 0);
    }
    if |Split(s, sep)| == 0 {
      assert sep in s;
      if !AllSeparators(s, sep) {
        var j :| 0 <= j < |s| && s[j] != sep;
        NonSeparatorKeepsPiece(s, sep, j);
      }
    }
  }

  /** A character other than the separator leaves a non-empty piece behind
      after trailing empty strings are stripped. */
  lemma {:induction false} NonSeparatorKeepsPiece(s: string, sep: char, j: nat)
    requires j < |s| && s[j] != sep
    ensures |StripTrailingEmpty(Pieces(s, sep))| > 0
    decreases |s|
  {
    if s[|s| - 1] == sep {
      var s' := s[..|s| - 1];
      assert s' + [sep] == s;
      PiecesAppendSeparator(s', sep);
      StripAppendEmpty(Pieces(s', sep));
      NonSeparatorKeepsPiece(s', sep, j);
    } else {
      var start := LastSeparatorEnd(s, sep, |s|);
      LastPiece(s, sep, start);
    }
  }

  /** The position just after the last separator before `end` (0 if none):
      the start of the piece that ends at `end`. */
  function LastSeparatorEnd(s: string, sep: char, end: nat): (start: nat)
    requires end <= |s|
    ensures start <= end
    ensures forall k :: start <= k < end ==> s[k] != sep
    ensures start == 0 || s[start - 1] == sep
    decreases end
  {
    if end == 0 || s[end - 1] == sep then end
    else LastSeparatorEnd(s, sep, end - 1)
  }

  /** One more separator at the end of a non-empty string changes nothing. */
  lemma SplitIgnoresTrailingSeparator(s: string, sep: char)
    requires |s| > 0
    ensures Split(s + [sep], sep) == Split(s, sep)
  {
    var t := s + [sep];
    assert t[|s|] == sep;
    assert sep in t;
    PiecesAppendSeparator(s, sep);
    StripAppendEmpty(Pieces(s, sep));
    assert Split(t, sep) == StripTrailingEmpty(Pieces(s, sep));
    if sep !in s {
      SeparatorFreePieces(s, sep);
      assert StripTrailingEmpty([s]) == [s] by {
        assert s[0] in s;
      }
    }
  }

  /** A string without the separator is a single piece. */
  lemma {:induction false} SeparatorFreePieces(s: string, sep: char)
    requires sep !in s
    ensures Pieces(s, sep) == [s]
    decreases |s|
  {
    if |s| > 0 {
      var s' := s[..|s| - 1];
      assert s' + [s[|s| - 1]] == s;
      SeparatorFreePieces(s', sep);
    }
  }

  /** A right-to-left scan that finds the last element of `s.split(sep)`
      without building the array: skip trailing separators, then collect
      back to the previous separator. */
  method LastSplitElement(s: string, sep: char) returns (r: Option<string>)
    ensures r == LastElement(Split(s, sep))
  {
    var end := |s|;
    while end > 0 && s[end - 1] == sep
      invariant 0 <= end <= |s|
      invariant forall k :: end <= k < |s| ==> s[k] == sep
    {
      end := end - 1;
    }
    if end == 0 {
      if |s| == 0 {
        r := Some(s);
      } else {
        assert AllSeparators(s, sep);
        SplitEmptyIff(s, sep);
        r := None;
      }
      return;
    }
    var start := end;
    while start > 0 && s[start - 1] != sep
      invariant 0 <= start <= end
      invariant forall k :: start <= k < end ==> s[k] != sep
    {
      start := start - 1;
    }
    r := Some(s[start..end]);
    LastElementOfSplit(s, sep, start, end);
  }

  /** The last element of the split is the piece `s[start..end]` that ends
      at the last non-separator character. */
  lemma LastElementOfSplit(s: string, sep: char, start: nat, end: nat)
    requires start <= end <= |s|
    requires 0 < end && s[end - 1] != sep
    requires forall k :: end <= k < |s| ==> s[k] == sep
    requires forall k :: start <= k < end ==> s[k] != sep
    requires start == 0 || s[start - 1] == sep
    ensures LastElement(Split(s, sep)) == Some(s[start..end])
  {
    var prefix := s[..end];
    StripIgnoresTrailingSeparators(s, sep, end);
    LastPiece(prefix, sep, start);
    assert prefix[start..] == s[start..end];
    if sep !in s {
      SeparatorFreePieces(s, sep);
      assert s[0] in s;
      assert StripTrailingEmpty([s]) == [s];
    }
    assert Split(s, sep) == StripTrailingEmpty(Pieces(s, sep));
  }

  // ---------------------------------------------------------------------
  // Decimal rendering of a non-negative int, as `"" + n` produces it.

  /** The character for decimal digit `d`. */
  function DigitChar(d: nat): (c: char)
    requires d < 10
    ensures '0' <= c <= '9'
    ensures c as int - '0' as int == d
  {
    ('0' as int + d) as char
  }

  /** All characters are decimal digits. */
  predicate IsDigits(s: string)
  {
    forall i :: 0 <= i < |s| ==> '0' <= s[i] <= '9'
  }

  /** The shortest decimal numeral for `n`: no leading zero unless `n` is 0. */
  function DecimalString(n: nat): (s: string)
    ensures |s| >= 1 && IsDigits(s)
    ensures s[0] == '0' ==> n == 0
    decreases n
  {
    if n < 10 then [DigitChar(n)] else DecimalString(n / 10) + [DigitChar(n % 10)]
  }

  /** The value of a decimal numeral. */
  function ParseDecimal(s: string): nat
    requires IsDigits(s)
  {
    if |s| == 0 then 0
    else ParseDecimal(s[..|s| - 1]) * 10 + (s[|s| - 1] as int - '0' as int)
  }

  /** Rendering then reading back a number gives the number. */
  lemma {:induction false} ParseDecimalString(n: nat)
    ensures ParseDecimal(DecimalString(n)) == n
    decreases n
  {
    var s := DecimalString(n);
    if n >= 10 {
      ParseDecimalString(n / 10);
      assert s[..|s| - 1] == DecimalString(n / 10);
    }
  }
}
