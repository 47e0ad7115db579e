/** String helpers with the JavaScript semantics the screens rely on: `trim`, `\s`, `toLowerCase`,
    `includes`, `split('.').pop()`, `String(n).padStart(w, '0')` and the `<` order on strings. */
module Text {

  // ---------------------------------------------------------------------------------------------
  // Whitespace, trim and blankness
  // ---------------------------------------------------------------------------------------------

  /** The characters JavaScript's `trim` and the regular-expression class `\s` treat as white space
      (WhiteSpace and LineTerminator of ECMA-262). */
  predicate IsWhitespace(c: char)
  {
    || c == ' ' || c == '\t' || c == '\n' || c == '\r' || c == '\U{000B}' || c == '\U{000C}'
    || c == '\U{00A0}' || c == '\U{1680}' || ('\U{2000}' <= c <= '\U{200A}')
    || c == '\U{2028}' || c == '\U{2029}' || c == '\U{202F}' || c == '\U{205F}'
    || c == '\U{3000}' || c == '\U{FEFF}'
  }

  predicate NoWhitespace(s: string)
  {
    forall i :: 0 <= i < |s| ==> !IsWhitespace(s[i])
  }

  /** `s.trim() === ''`: the string is empty or consists of white space only. */
  predicate IsBlank(s: string)
  {
    forall i :: 0 <= i < |s| ==> IsWhitespace(s[i])
  }

  function TrimStart(s: string): (r: string)
    ensures |r| <= |s| && r == s[|s| - |r|..]
    ensures r == [] || !IsWhitespace(r[0])
    ensures forall i :: 0 <= i < |s| - |r| ==> IsWhitespace(s[i])
  {
    if s == [] || !IsWhitespace(s[0]) then s else TrimStart(s[1..])
  }

  function TrimEnd(s: string): (r: string)
    ensures |r| <= |s| && r == s[..|r|]
    ensures r == [] || !IsWhitespace(r[|r| - 1])
    ensures forall i :: |r| <= i < |s| ==> IsWhitespace(s[i])
  {
    if s == [] || !IsWhitespace(s[|s| - 1]) then s else TrimEnd(s[..|s| - 1])
  }

  /** `String.prototype.trim`. */
  function Trim(s: string): string
  {
    TrimEnd(TrimStart(s))
  }

  /** The guard `!x.trim()` used by the key generator and the task dialog: trimming leaves nothing
      exactly when every character is white space. */
  lemma TrimEmptyIffBlank(s: string)
    ensures Trim(s) == [] <==> IsBlank(s)
  {
    var t := TrimStart(s);
    if Trim(s) == [] {
      assert |TrimEnd(t)| == 0;
      assert t == [];
    }
  }

  // ---------------------------------------------------------------------------------------------
  // Case folding and substring search
  // ---------------------------------------------------------------------------------------------

  /** `toLowerCase` on one character. Only the Latin capitals are folded; the CJK text of the
      dashboard has no case and is left as it is. */
  function LowerChar(c: char): (r: char)
    ensures 'A' <= c <= 'Z' ==> 'a' <= r <= 'z'
    ensures !('A' <= c <= 'Z') ==> r == c
  {
    if 'A' <= c <= 'Z' then (c as int + 32) as char else c
  }

  function ToLower(s: string): (r: string)
    ensures |r| == |s|
    ensures forall i :: 0 <= i < |s| ==> r[i] == LowerChar(s[i])
  {
    seq(|s|, i requires 0 <= i < |s| => LowerChar(s[i]))
  }

  /** Folding twice is folding once, and folding keeps white space where it was. */
  lemma ToLowerIdempotent(s: string)
    ensures ToLower(ToLower(s)) == ToLower(s)
    ensures forall i :: 0 <= i < |s| ==> (IsWhitespace(ToLower(s)[i]) <==> IsWhitespace(s[i]))
  {
  }

  predicate IsPrefix(p: string, s: string)
  {
    |p| <= |s| && s[..|p|] == p
  }

  /** `s.includes(sub)`. */
  predicate Contains(s: string, sub: string)
    decreases |s|
  {
    IsPrefix(sub, s) || (s != [] && Contains(s[1..], sub))
  }

  predicate OccursAt(s: string, sub: string, i: int)
  {
    0 <= i && i + |sub| <= |s| && s[i..i + |sub|] == sub
  }

  /** `Contains` holds exactly when `sub` occurs at some position of `s`. */
  lemma {:induction false} ContainsIffOccurs(s: string, sub: string)
    ensures Contains(s, sub) <==> exists i :: OccursAt(s, sub, i)
    decreases |s|
  {
    if IsPrefix(sub, s) {
      assert OccursAt(s, sub, 0);
    } else if s != [] {
      ContainsIffOccurs(s[1..], sub);
      if Contains(s[1..], sub) {
        var i :| OccursAt(s[1..], sub, i);
        assert s[i + 1..i + 1 + |sub|] == s[1..][i..i + |sub|];
        assert OccursAt(s, sub, i + 1);
      }
      if exists i :: OccursAt(s, sub, i) {
        var i :| OccursAt(s, sub, i);
        assert i != 0;
        assert s[1..][i - 1..i - 1 + |sub|] == s[i..i + |sub|];
        assert OccursAt(s[1..], sub, i - 1);
      }
    }
  }

  /** Every string contains the empty string, so an empty search term hides nothing. */
  lemma ContainsEmpty(s: string)
    ensures Contains(s, [])
  {
  }

  /** The case-insensitive search of every list screen: `field.toLowerCase().includes(term.toLowerCase())`. */
  predicate Matches(field: string, term: string)
  {
    Contains(ToLower(field), ToLower(term))
  }

  lemma MatchesEmptyTerm(field: string)
    ensures Matches(field, [])
  {
    assert ToLower([]) == [];
  }

  // ---------------------------------------------------------------------------------------------
  // Replacing white-space runs (`s.replace(/\s+/g, '_')`)
  // ---------------------------------------------------------------------------------------------

  function DropWhitespace(s: string): (r: string)
    ensures |r| <= |s| && r == s[|s| - |r|..]
    ensures r == [] || !IsWhitespace(r[0])
  {
    TrimStart(s)
  }

  /** Replaces every maximal run of white space by the single character `sep`. */
  function ReplaceWhitespaceRuns(s: string, sep: char): (r: string)
    requires !IsWhitespace(sep)
    ensures |r| <= |s|
    ensures NoWhitespace(r)
    ensures NoWhitespace(s) ==> r == s
    ensures s != [] ==> r != []
    decreases |s|
  {
    if s == [] then []
    else if IsWhitespace(s[0]) then [sep] + ReplaceWhitespaceRuns(DropWhitespace(s[1..]), sep)
    else
      assert NoWhitespace(s) ==> NoWhitespace(s[1..]);
      [s[0]] + ReplaceWhitespaceRuns(s[1..], sep)
  }

  /** The same replacement read as the global regular expression scans it, one character at a
      time: a white-space character that starts a run writes `sep`, one that continues a run
      (`inRun`) writes nothing, and every other character is copied and ends the run. */
  function ScanReplace(s: string, sep: char, inRun: bool): string
  {
    if s == [] then []
    else if IsWhitespace(s[0]) then (if inRun then [] else [sep]) + ScanReplace(s[1..], sep, true)
    else [s[0]] + ScanReplace(s[1..], sep, false)
  }

  /** Inside a run, the rest of the run writes nothing. */
  lemma {:induction false} ScanSkipsRun(s: string, sep: char)
    ensures ScanReplace(s, sep, true) == ScanReplace(DropWhitespace(s), sep, true)
  {
    if s != [] && IsWhitespace(s[0]) {
      ScanSkipsRun(s[1..], sep);
    }
  }

  /** Collapsing the runs is the character scan: each maximal run of white space becomes one `sep`
      and every other character is kept, in order. */
  lemma {:induction false} ReplaceWhitespaceRunsScans(s: string, sep: char)
    requires !IsWhitespace(sep)
    ensures ReplaceWhitespaceRuns(s, sep) == ScanReplace(s, sep, false)
    decreases |s|
  {
    if s != [] {
      if IsWhitespace(s[0]) {
        var rest := DropWhitespace(s[1..]);
        ReplaceWhitespaceRunsScans(rest, sep);
        ScanSkipsRun(s[1..], sep);
        assert ScanReplace(rest, sep, true) == ScanReplace(rest, sep, false);
      } else {
        ReplaceWhitespaceRunsScans(s[1..], sep);
      }
    }
  }

  // ---------------------------------------------------------------------------------------------
  // File name extension (`name.split('.').pop()`)
  // ---------------------------------------------------------------------------------------------

  /** The text after the last '.', or the whole name when it has none. */
  function LastSegment(s: string): (r: string)
    ensures |r| <= |s| && r == s[|s| - |r|..]
    ensures '.' !in r
    ensures |r| < |s| ==> s[|s| - |r| - 1] == '.'
  {
    if s == [] then []
    else if s[|s| - 1] == '.' then []
    else
      var init := LastSegment(s[..|s| - 1]);
      assert s[|s| - 1 - |init|..] == init + [s[|s| - 1]];
      init + [s[|s| - 1]]
  }

  /** A name without any '.' is its own extension. */
  lemma LastSegmentNoDot(s: string)
    requires '.' !in s
    ensures LastSegment(s) == s
  {
  }

  /** The extension of `base + "." + ext` is `ext` whenever `ext` has no '.'. */
  lemma {:induction false} LastSegmentOfDotted(base: string, ext: string)
    requires '.' !in ext
    ensures LastSegment(base + "." + ext) == ext
  {
    var s := base + "." + ext;
    assert s[|s| - |ext|..] == ext;
    assert s[|s| - |ext| - 1] == '.';
  }

  // ---------------------------------------------------------------------------------------------
  // Decimal numbers and zero-padded identifiers
  // ---------------------------------------------------------------------------------------------

  predicate IsDigit(c: char)
  {
    '0' <= c <= '9'
  }

  function DigitChar(d: nat): (c: char)
    requires d < 10
    ensures IsDigit(c)
  {
    ('0' as int + d) as char
  }

  function DigitValue(c: char): nat
    requires IsDigit(c)
  {
    c as int - '0' as int
  }

  /** `String(n)` for a non-negative integer: decimal digits without leading zeros. */
  function NatToString(n: nat): (r: string)
    ensures |r| >= 1
    ensures forall i :: 0 <= i < |r| ==> IsDigit(r[i])
    ensures n >= 10 ==> r[0] != '0'
    ensures n < 10 <==> |r| == 1
  {
    if n < 10 then [DigitChar(n)] else NatToString(n / 10) + [DigitChar(n % 10)]
  }

  /** Value of a string of decimal digits. */
  function ParseDigits(s: string): nat
    requires forall i :: 0 <= i < |s| ==> IsDigit(s[i])
  {
    if s == [] then 0 else ParseDigits(s[..|s| - 1]) * 10 + DigitValue(s[|s| - 1])
  }

  lemma {:induction false} ParseNatToString(n: nat)
    ensures ParseDigits(NatToString(n)) == n
  {
    if n >= 10 {
      var s := NatToString(n);
      assert s[..|s| - 1] == NatToString(n / 10);
      ParseNatToString(n / 10);
    }
  }

  lemma {:induction false} ParseLeadingZero(s: string)
    requires forall i :: 0 <= i < |s| ==> IsDigit(s[i])
    ensures ParseDigits("0" + s) == ParseDigits(s)
  {
    if s != [] {
      var t := "0" + s;
      assert t[..|t| - 1] == "0" + s[..|s| - 1];
      ParseLeadingZero(s[..|s| - 1]);
    }
  }

  /** `s.padStart(width, c)`. */
  function PadStart(s: string, width: nat, c: char): (r: string)
    ensures |s| >= width ==> r == s
    ensures |s| < width ==> |r| == width
    ensures r[|r| - |s|..] == s
    ensures forall i :: 0 <= i < |r| - |s| ==> r[i] == c
  {
    if |s| >= width then s else seq(width - |s|, _ => c) + s
  }

  /** The identifiers `PREFIX-` + `String(n).padStart(3, '0')` of rules, tasks and feedback. */
  function SeqId(prefix: string, n: nat): string
  {
    prefix + PadStart(NatToString(n), 3, '0')
  }

  lemma {:induction false} ParsePadded(s: string, width: nat)
    requires forall i :: 0 <= i < |s| ==> IsDigit(s[i])
    ensures var p := PadStart(s, width, '0');
            (forall i :: 0 <= i < |p| ==> IsDigit(p[i])) && ParseDigits(p) == ParseDigits(s)
    decreases width
  {
    if |s| < width {
      var p := PadStart(s, width, '0');
      var q := PadStart(s, width - 1, '0');
      assert p == "0" + q;
      ParsePadded(s, width - 1);
      ParseLeadingZero(q);
    }
  }

  /** The number part of an identifier is at least three characters and parses back to `n`. */
  lemma SeqIdDigits(prefix: string, n: nat)
    ensures var d := SeqId(prefix, n)[|prefix|..];
            |d| >= 3 && (forall i :: 0 <= i < |d| ==> IsDigit(d[i])) && ParseDigits(d) == n
    ensures n < 1000 ==> |SeqId(prefix, n)| == |prefix| + 3
  {
    var d := SeqId(prefix, n)[|prefix|..];
    assert d == PadStart(NatToString(n), 3, '0');
    ParsePadded(NatToString(n), 3);
    ParseNatToString(n);
    if n < 1000 {
      assert n / 10 < 100;
      if n >= 10 {
        assert n / 10 / 10 < 10;
      }
    }
  }

  /** Different counters give different identifiers under the same prefix. */
  lemma SeqIdInjective(prefix: string, a: nat, b: nat)
    requires SeqId(prefix, a) == SeqId(prefix, b)
    ensures a == b
  {
    SeqIdDigits(prefix, a);
    SeqIdDigits(prefix, b);
    assert SeqId(prefix, a)[|prefix|..] == SeqId(prefix, b)[|prefix|..];
  }

  /** Under one prefix, identifiers numbered 1, 2, ... in list order are pairwise distinct. */
  lemma SeqIdsDistinct(prefix: string, ids: seq<string>)
    requires forall i :: 0 <= i < |ids| ==> ids[i] == SeqId(prefix, i + 1)
    ensures forall i, j :: 0 <= i < j < |ids| ==> ids[i] != ids[j]
  {
    forall i, j | 0 <= i < j < |ids| ensures ids[i] != ids[j] {
      if ids[i] == ids[j] {
        SeqIdInjective(prefix, i + 1, j + 1);
      }
    }
  }

  /** The identifier of a one-digit counter: the prefix, two zeros and the digit. */
  lemma SeqIdOneDigit(prefix: string, n: nat)
    requires 1 <= n <= 9
    ensures SeqId(prefix, n) == prefix + "00" + [DigitChar(n)]
  {
    assert NatToString(n) == [DigitChar(n)];
  }

  /** When the identifiers of a list are numbered 1, 2, ... in list order, the count-based identifier
      of the next element is not among them. */
  lemma SeqIdFresh(prefix: string, ids: seq<string>)
    requires forall i :: 0 <= i < |ids| ==> ids[i] == SeqId(prefix, i + 1)
    ensures SeqId(prefix, |ids| + 1) !in ids
  {
    if SeqId(prefix, |ids| + 1) in ids {
      var i :| 0 <= i < |ids| && ids[i] == SeqId(prefix, |ids| + 1);
      SeqIdInjective(prefix, i + 1, |ids| + 1);
    }
  }

  // ---------------------------------------------------------------------------------------------
  // The `<` order of JavaScript strings
  // ---------------------------------------------------------------------------------------------

  /** Lexicographic order by character code; a proper prefix comes first. */
  predicate StrLess(a: string, b: string)
  {
    if a == [] then b != []
    else if b == [] then false
    else if a[0] == b[0] then StrLess(a[1..], b[1..])
    else a[0] < b[0]
  }

  lemma {:induction false} StrLessIrreflexive(a: string)
    ensures !StrLess(a, a)
  {
    if a != [] {
      StrLessIrreflexive(a[1..]);
    }
  }

  lemma {:induction false} StrLessTransitive(a: string, b: string, c: string)
    requires StrLess(a, b) && StrLess(b, c)
    ensures StrLess(a, c)
  {
    if a != [] && b != [] && c != [] && a[0] == b[0] && b[0] == c[0] {
      StrLessTransitive(a[1..], b[1..], c[1..]);
    }
  }

  lemma {:induction false} StrLessTotal(a: string, b: string)
    ensures a == b || StrLess(a, b) || StrLess(b, a)
  {
    if a != [] && b != [] && a[0] == b[0] {
      StrLessTotal(a[1..], b[1..]);
      if a[1..] == b[1..] {
        assert a == [a[0]] + a[1..];
        assert b == [b[0]] + b[1..];
      }
    }
  }
}
