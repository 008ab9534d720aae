/** The C string routines the drivers rely on: `epicsStrCaseCmp`, `strchr`,
    `epicsStrtok_r` with a comma delimiter, and the 39-character cut applied
    before text is handed to a 40-byte EPICS string. */
module Strings {
  import opened Optional

  /** C `toupper` in the "C" locale. */
  function ToUpper(c: char): char
  {
    if 'a' <= c <= 'z' then (c as int - 32) as char else c
  }

  /** `epicsStrCaseCmp(a, b) == 0`: same length, equal after `toupper`. */
  predicate CaseEq(a: string, b: string)
  {
    |a| == |b| && forall i | 0 <= i < |a| :: ToUpper(a[i]) == ToUpper(b[i])
  }

  /** What `strchr` returns: the position of the character, or NULL. */
  datatype Found = Missing | At(index: nat)

  /** The first index of `c` among the last `n` characters of `s`. */
  function Scan(s: string, c: char, n: nat): Found
    requires n <= |s|
  {
    if n == 0 then Missing
    else if s[|s| - n] == c then At(|s| - n)
    else Scan(s, c, n - 1)
  }

  /** `strchr(s + from, c)`: the first index at or after `from` holding `c`. */
  function FindFrom(s: string, c: char, from: nat): Found
  {
    if from >= |s| then Missing else Scan(s, c, |s| - from)
  }

  lemma {:induction false} ScanSpec(s: string, c: char, n: nat)
    requires n <= |s|
    ensures var r := Scan(s, c, n);
      (r.At? ==> |s| - n <= r.index < |s| && s[r.index] == c && forall k | |s| - n <= k < r.index :: s[k] != c) &&
      (r.Missing? ==> forall k | |s| - n <= k < |s| :: s[k] != c)
    decreases n
  {
    if n > 0 && s[|s| - n] != c {
      ScanSpec(s, c, n - 1);
    }
  }

  /** The search finds the first `c` at or after `from`, and reports
      Missing only when there is none. */
  lemma FindFromSpec(s: string, c: char, from: nat)
    ensures FindFrom(s, c, from).At? ==>
      var i := FindFrom(s, c, from).index;
      from <= i < |s| && s[i] == c && forall k | from <= k < i :: s[k] != c
    ensures FindFrom(s, c, from).Missing? ==> forall k | from <= k < |s| :: s[k] != c
  {
    if from < |s| {
      ScanSpec(s, c, |s| - from);
    }
  }

  /** The search result is pinned down by where the character is. */
  lemma FindFromAt(s: string, c: char, from: nat, i: nat)
    requires from <= i < |s| && s[i] == c
    requires forall k | from <= k < i :: s[k] != c
    ensures FindFrom(s, c, from) == At(i)
  {
    FindFromSpec(s, c, from);
  }

  lemma FindFromMissing(s: string, c: char, from: nat)
    requires forall k | from <= k < |s| :: s[k] != c
    ensures FindFrom(s, c, from) == Missing
  {
    FindFromSpec(s, c, from);
  }

  /** `strchr` as the C library runs it: a scan from `from` to the first `c`. */
  method StrChr(s: string, from: nat, c: char) returns (r: Found)
    ensures r == FindFrom(s, c, from)
  {
    var i := from;
    while i < |s| && s[i] != c
      invariant from <= i
      invariant forall k | from <= k < i :: k < |s| && s[k] != c
    {
      i := i + 1;
    }
    r := if i < |s| then At(i) else Missing;
    if i < |s| {
      FindFromAt(s, c, from, i);
    } else {
      FindFromMissing(s, c, from);
    }
  }

  /** Longest text an EPICS string field holds. */
  const MaxText := 39

  /** The text as copied into a 40-byte buffer: cut to 39 characters. */
  function Clip(s: string): (r: string)
    ensures |r| <= MaxText && |r| <= |s| && r == s[..|r|]
    ensures |s| <= MaxText ==> r == s
    ensures |s| > MaxText ==> |r| == MaxText
  {
    if |s| < MaxText + 1 then s else s[..MaxText]
  }

  /** The index of the first key equal to `key` up to case, from `from` on. */
  function FirstCaseMatch(keys: seq<string>, key: string, from: nat): (r: Option<nat>)
    decreases |keys| - from
    ensures r.Some? ==> from <= r.value < |keys| && CaseEq(key, keys[r.value])
    ensures r.Some? ==> forall j | from <= j < r.value :: !CaseEq(key, keys[j])
    ensures r.None? ==> forall j | from <= j < |keys| :: !CaseEq(key, keys[j])
  {
    if from >= |keys| then None
    else if CaseEq(key, keys[from]) then Some(from)
    else FirstCaseMatch(keys, key, from + 1)
  }

  /** The loop of a driver's `create`: `epicsStrCaseCmp` against each key
      in turn, stopping at the first that matches. */
  method MatchKey(keys: seq<string>, key: string) returns (r: Option<nat>)
    ensures r == FirstCaseMatch(keys, key, 0)
  {
    var i := 0;
    while i < |keys|
      invariant 0 <= i <= |keys|
      invariant forall j | 0 <= j < i :: !CaseEq(key, keys[j])
    {
      if CaseEq(key, keys[i]) {
        return Some(i);
      }
      i := i + 1;
    }
    return None;
  }

  // ---------------------------------------------------------------------
  // Comma tokenising (`epicsStrtok_r(str, ",", &saveptr)`)

  /** The first index among the last `n` characters of `s` that does not
      hold a comma; `|s|` when they are all commas. */
  function SkipCommas(s: string, n: nat): nat
    requires n <= |s|
  {
    if n == 0 then |s|
    else if s[|s| - n] != ',' then |s| - n
    else SkipCommas(s, n - 1)
  }

  lemma {:induction false} SkipCommasSpec(s: string, n: nat)
    requires n <= |s|
    ensures var i := SkipCommas(s, n);
      |s| - n <= i <= |s| && (i < |s| ==> s[i] != ',') && forall k | |s| - n <= k < i :: s[k] == ','
    decreases n
  {
    if n > 0 && s[|s| - n] == ',' {
      SkipCommasSpec(s, n - 1);
    }
  }

  /** One call of the tokeniser, resuming at `pos`: it skips commas, and
      returns the run of non-commas that follows with the position after the
      comma that ends it, or None when only commas remain. */
  function StrTok(s: string, pos: nat): Option<(string, nat)>
    requires pos <= |s|
  {
    var start := SkipCommas(s, |s| - pos);
    if start >= |s| then None
    else
      FindFromSpec(s, ',', start);
      match FindFrom(s, ',', start)
      case Missing => Some((s[start..], |s|))
      case At(e) => Some((s[start..e], e + 1))
  }

  /** A token is a non-empty run of non-commas, the tokeniser moves forward,
      and it gives up exactly when only commas are left. The token starts
      after the commas at `pos`, runs up to the next comma or the end, and
      the tokeniser resumes just after that comma. */
  lemma StrTokSpec(s: string, pos: nat)
    requires pos <= |s|
    ensures var r := StrTok(s, pos);
      (r.Some? ==> r.value.0 != [] && forall k | 0 <= k < |r.value.0| :: r.value.0[k] != ',') &&
      (r.Some? ==> pos < r.value.1 <= |s|) &&
      (r.None? <==> forall k | pos <= k < |s| :: s[k] == ',')
    ensures var r, start := StrTok(s, pos), SkipCommas(s, |s| - pos);
      pos <= start <= |s| && (forall k | pos <= k < start :: s[k] == ',') &&
      (r.Some? ==>
        var e := start + |r.value.0|;
        e <= |s| && r.value.0 == s[start..e] &&
        ((e == |s| && r.value.1 == |s|) || (e < |s| && s[e] == ',' && r.value.1 == e + 1)))
  {
    SkipCommasSpec(s, |s| - pos);
    var start := SkipCommas(s, |s| - pos);
    if start < |s| {
      FindFromSpec(s, ',', start);
    }
  }

  /** Every token the tokeniser yields from `pos` on. */
  function Tokens(s: string, pos: nat): seq<string>
    requires pos <= |s|
    decreases |s| - pos
  {
    StrTokSpec(s, pos);
    match StrTok(s, pos)
    case None => []
    case Some((t, next)) => [t] + Tokens(s, next)
  }

  /** One call of the tokeniser peels the first token off the list. */
  lemma TokensStep(s: string, pos: nat)
    requires pos <= |s|
    ensures StrTok(s, pos).None? ==> Tokens(s, pos) == []
    ensures StrTok(s, pos).Some? ==>
      pos < StrTok(s, pos).value.1 <= |s| &&
      Tokens(s, pos) == [StrTok(s, pos).value.0] + Tokens(s, StrTok(s, pos).value.1)
  {
    StrTokSpec(s, pos);
  }

  lemma {:induction false} TokensOfTrailing(t: string, s: string, pos: nat)
    requires pos <= |s| && s[pos..] == t
    requires t != [] && forall k | 0 <= k < |t| :: t[k] != ','
    ensures Tokens(s, pos) == [t]
  {
    assert s[pos] == t[0];
    forall k | pos <= k < |s| ensures s[k] != ',' { assert s[k] == t[k - pos]; }
    FindFromMissing(s, ',', pos);
    assert StrTok(s, pos) == Some((t, |s|));
  }

  lemma {:induction false} TokensOfLeading(t: string, s: string, pos: nat, end: nat)
    requires end == pos + |t| && end < |s| && s[pos..end] == t && s[end] == ','
    requires t != [] && forall k | 0 <= k < |t| :: t[k] != ','
    ensures Tokens(s, pos) == [t] + Tokens(s, end + 1)
  {
    assert s[pos] == t[0];
    forall k | pos <= k < end ensures s[k] != ',' { assert s[k] == t[k - pos]; }
    FindFromAt(s, ',', pos, end);
  }

  /** Where the three parts and the two commas of `a,b,c` sit. */
  lemma TripleSlices(a: string, b: string, c: string)
    ensures var s, i := a + "," + b + "," + c, |a|;
      var j := i + 1 + |b|;
      j < |s| && s[0..i] == a && s[i] == ',' && s[i + 1..j] == b && s[j] == ',' && s[j + 1..] == c
  {
  }

  lemma ListOfThree<T>(xs: seq<T>, ys: seq<T>, zs: seq<T>, x: T, y: T, z: T)
    requires xs == [x] + ys && ys == [y] + zs && zs == [z]
    ensures xs == [x, y, z]
  {
  }

  /** A reply made of three comma-joined tokens tokenises back into them. */
  lemma TokensOfTriple(a: string, b: string, c: string)
    requires a != [] && b != [] && c != []
    requires forall k | 0 <= k < |a| :: a[k] != ','
    requires forall k | 0 <= k < |b| :: b[k] != ','
    requires forall k | 0 <= k < |c| :: c[k] != ','
    ensures Tokens(a + "," + b + "," + c, 0) == [a, b, c]
  {
    TripleSlices(a, b, c);
    TokensOfParts(a + "," + b + "," + c, a, b, c, |a|, |a| + 1 + |b|);
  }

  /** The same, for a reply known only by where its parts and commas sit. */
  lemma TokensOfParts(s: string, a: string, b: string, c: string, i: nat, j: nat)
    requires i == |a| && j == i + 1 + |b| && j < |s|
    requires s[0..i] == a && s[i] == ',' && s[i + 1..j] == b && s[j] == ',' && s[j + 1..] == c
    requires a != [] && b != [] && c != []
    requires forall k | 0 <= k < |a| :: a[k] != ','
    requires forall k | 0 <= k < |b| :: b[k] != ','
    requires forall k | 0 <= k < |c| :: c[k] != ','
    ensures Tokens(s, 0) == [a, b, c]
  {
    TokensOfLeading(a, s, 0, i);
    TokensOfLeading(b, s, i + 1, j);
    TokensOfTrailing(c, s, j + 1);
    ListOfThree(Tokens(s, 0), Tokens(s, i + 1), Tokens(s, j + 1), a, b, c);
  }

  /** A reply known to hold two parts around one comma tokenises into them. */
  lemma TokensOfPair(s: string, a: string, b: string, i: nat)
    requires i == |a| && i < |s| && s[0..i] == a && s[i] == ',' && s[i + 1..] == b
    requires a != [] && b != []
    requires forall k | 0 <= k < |a| :: a[k] != ','
    requires forall k | 0 <= k < |b| :: b[k] != ','
    ensures Tokens(s, 0) == [a, b]
  {
    TokensOfLeading(a, s, 0, i);
    TokensOfTrailing(b, s, i + 1);
    ListOfTwo(Tokens(s, 0), Tokens(s, i + 1), a, b);
  }

  lemma ListOfTwo<T>(xs: seq<T>, ys: seq<T>, x: T, y: T)
    requires xs == [x] + ys && ys == [y]
    ensures xs == [x, y]
  {
  }

  /** The token loop of the sensor read, with the guard it evidently means:
      it stops at the first missing token and keeps at most three. */
  method TokenizeReading(reply: string) returns (tokens: seq<string>)
    ensures |tokens| <= 3 && |tokens| <= |Tokens(reply, 0)| && tokens == Tokens(reply, 0)[..|tokens|]
    ensures |tokens| == 3 || tokens == Tokens(reply, 0)
  {
    var pos: nat := 0;
    var pass := 0;
    tokens := [];
    ghost var rest := Tokens(reply, 0);
    while pass < 3
      invariant 0 <= pass <= 3 && pos <= |reply| && |tokens| == pass
      invariant rest == Tokens(reply, pos) && Tokens(reply, 0) == tokens + rest
    {
      TokensStep(reply, pos);
      var t := StrTok(reply, pos);
      if t.None? {
        break;
      }
      Behead(t.value.0, Tokens(reply, t.value.1), rest);
      ShiftOne(tokens, rest, t.value.0);
      tokens := tokens + [t.value.0];
      rest := rest[1..];
      pos := t.value.1;
      pass := pass + 1;
    }
    PrefixOfConcat(tokens, rest);
  }

  lemma Behead<T>(x: T, r: seq<T>, b: seq<T>)
    requires b == [x] + r
    ensures b != [] && b[0] == x && b[1..] == r
  {
  }

  lemma ShiftOne<T>(a: seq<T>, b: seq<T>, x: T)
    requires b != [] && b[0] == x
    ensures (a + [x]) + b[1..] == a + b
  {
    assert b == [x] + b[1..];
  }

  lemma PrefixOfConcat<T>(a: seq<T>, b: seq<T>)
    ensures (a + b)[..|a|] == a
    ensures b == [] ==> a + b == a
  {
  }

  /** The token loop as the drivers write it. Its guard tests the address of
      the token array, which is never null, so the loop always runs three
      passes and keeps a NULL token (None) for each missing one. */
  method TokenPassesAsWritten(reply: string) returns (pass: nat, tokens: seq<Option<string>>)
    ensures pass == 3 && |tokens| == 3
    ensures forall k | 0 <= k < 3 :: tokens[k] == TokenAt(Tokens(reply, 0), k)
  {
    var pos: nat := 0;
    var exhausted := false;
    pass := 0;
    tokens := [];
    ghost var all := Tokens(reply, 0);
    ghost var taken: seq<string> := [];
    ghost var rest := all;
    while pass < 3
      invariant 0 <= pass <= 3 && pos <= |reply| && |tokens| == pass
      invariant rest == Tokens(reply, pos) && all == taken + rest && |taken| <= pass
      invariant exhausted ==> rest == []
      invariant !exhausted ==> |taken| == pass
      invariant forall k | 0 <= k < pass :: tokens[k] == TokenAt(all, k)
    {
      TokensStep(reply, pos);
      var t := if exhausted then None else StrTok(reply, pos);
      if t.None? {
        TokenAtBeyond(all, taken, rest, pass);
        exhausted := true;
        tokens := tokens + [None];
      } else {
        Behead(t.value.0, Tokens(reply, t.value.1), rest);
        TokenAtNext(all, taken, rest);
        ShiftOne(taken, rest, t.value.0);
        taken := taken + [t.value.0];
        rest := rest[1..];
        tokens := tokens + [Some(t.value.0)];
        pos := t.value.1;
      }
      pass := pass + 1;
    }
  }

  /** Pass `k` of the token loop as written: the `k`-th token, or nothing
      once the tokens have run out. */
  function TokenAt(ts: seq<string>, k: nat): (r: Option<string>)
    ensures r.Some? <==> k < |ts|
    ensures r.Some? ==> r.value == ts[k]
  {
    if k < |ts| then Some(ts[k]) else None
  }

  lemma TokenAtBeyond(all: seq<string>, taken: seq<string>, rest: seq<string>, k: nat)
    requires all == taken + rest && rest == [] && |taken| <= k
    ensures TokenAt(all, k) == None
  {
  }

  lemma TokenAtNext(all: seq<string>, taken: seq<string>, rest: seq<string>)
    requires all == taken + rest && rest != []
    ensures TokenAt(all, |taken|) == Some(rest[0])
  {
  }
}
