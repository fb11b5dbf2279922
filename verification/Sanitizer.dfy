/**
 The credential sanitizer: the one-pass scanner sanitizeFields, proved equal to splitting the text at
 the terminators, masking each piece after its first credential '=' and joining the pieces again, and
 the laws that follow from that form.
 */
module Sanitizer {
  import opened Common
  import opened Utf8

  const EQUALS: Byte := 61
  const STAR: Byte := 42
  const AMPERSAND: Byte := 38
  const NEWLINE: Byte := 10

  const CREDENTIAL_FIELDS: seq<Str> := [Ascii("password"), Ascii("pass"), Ascii("pass2"), Ascii("clave")]

  /** The length of credentialMask. */
  const MASK_LENGTH: nat := 8

  /** The bytes that end a masked value. */
  predicate IsTerminator(b: Byte) {
    b == STAR || b == AMPERSAND || b == NEWLINE
  }

  function Stars(k: nat): (r: Str)
    ensures |r| == k && forall i | 0 <= i < k :: r[i] == STAR
  {
    seq(k, i => STAR)
  }

  // --------------------------------------------------------------------------------------------
  // Credential names
  // --------------------------------------------------------------------------------------------

  predicate ValidName(name: Str) {
    forall i | 0 <= i < |name| :: LowerAscii(name[i])
  }

  lemma FieldsAreNames()
    ensures forall f | f in CREDENTIAL_FIELDS :: ValidName(f) && f != []
    ensures forall f, x | f in CREDENTIAL_FIELDS && (x == EQUALS || IsTerminator(x)) :: x !in f
  {
  }

  /** The runes of s, read backwards, fold to the bytes of name. */
  ghost predicate HasFoldSuffix(s: Str, name: Str)
    decreases |name|
  {
    name == [] ||
    var (r, size) := LastRune(s);
    && size != 0
    && SameFold(r, name[|name| - 1])
    && HasFoldSuffix(s[..|s| - size], name[..|name| - 1])
  }

  ghost predicate IsCredential(s: Str) {
    exists f | f in CREDENTIAL_FIELDS :: HasFoldSuffix(s, f)
  }

  /** t spells name: the encodings of one member of the folding orbit of each of its characters. */
  ghost predicate Spells(t: Str, name: Str)
    decreases |name|
  {
    if name == [] then t == []
    else exists r: Rune :: SameFold(r, name[|name| - 1]) && SpellsWithLast(t, name, r)
  }

  ghost predicate SpellsWithLast(t: Str, name: Str, r: Rune)
    requires name != []
    decreases |name|, 0
  {
    && Foldable(r)
    && EndsWith(t, Encode(r))
    && Spells(t[..|t| - |Encode(r)|], name[..|name| - 1])
  }

  /** A backward match is exactly a suffix that spells the name. */
  lemma FoldSuffixIsSpelling(s: Str, name: Str)
    requires ValidName(name)
    ensures HasFoldSuffix(s, name) <==> exists k | 0 <= k <= |s| :: Spells(s[k..], name)
  {
    if HasFoldSuffix(s, name) {
      var k := MatchedSuffix(s, name);
    }
    if k :| 0 <= k <= |s| && Spells(s[k..], name) {
      SpellingMatches(s, name, k);
    }
  }

  lemma SuffixOfSuffix(s: Str, k: nat, size: nat)
    requires k <= |s| && size <= |s| - k
    ensures s[k..][|s[k..]| - size..] == s[|s| - size..]
    ensures s[k..][..|s[k..]| - size] == s[..|s| - size][k..]
  {
  }

  lemma {:induction false} MatchedSuffix(s: Str, name: Str) returns (k: nat)
    requires ValidName(name) && HasFoldSuffix(s, name)
    ensures k <= |s| && Spells(s[k..], name)
    decreases |name|
  {
    hide LastRune, SameFold, Encode, Foldable;
    if name == [] {
      k := |s|;
    } else {
      var (r, size) := LastRune(s);
      var c := name[|name| - 1];
      SameFoldIsFoldable(r, c);
      LastRuneFolds(s, r);
      k := MatchedSuffix(s[..|s| - size], name[..|name| - 1]);
      SuffixOfSuffix(s, k, size);
      assert SpellsWithLast(s[k..], name, r);
    }
  }

  lemma {:induction false} SpellingMatches(s: Str, name: Str, k: nat)
    requires ValidName(name) && k <= |s| && Spells(s[k..], name)
    ensures HasFoldSuffix(s, name)
    decreases |name|, 1
  {
    if name != [] {
      var r: Rune :| SameFold(r, name[|name| - 1]) && SpellsWithLast(s[k..], name, r);
      SpellingMatchesLast(s, name, k, r);
    }
  }

  lemma {:induction false} SpellingMatchesLast(s: Str, name: Str, k: nat, r: Rune)
    requires ValidName(name) && name != [] && k <= |s|
    requires SameFold(r, name[|name| - 1]) && SpellsWithLast(s[k..], name, r)
    ensures HasFoldSuffix(s, name)
    decreases |name|, 0
  {
    hide LastRune, SameFold, Encode, HasFoldSuffix, Spells;
    var size := |Encode(r)|;
    SuffixOfSuffix(s, k, size);
    LastRuneFolds(s, r);
    SpellingMatches(s[..|s| - size], name[..|name| - 1], k);
    FoldSuffixStep(s, name);
  }

  lemma FoldSuffixStep(s: Str, name: Str)
    requires name != [] && s != [] && SameFold(LastRune(s).0, name[|name| - 1])
    requires HasFoldSuffix(s[..|s| - LastRune(s).1], name[..|name| - 1])
    ensures HasFoldSuffix(s, name)
  {
  }

  lemma FoldSuffixUnfolds(s: Str, name: Str)
    ensures HasFoldSuffix(s, name) <==>
            (name == [] ||
             (s != [] && SameFold(LastRune(s).0, name[|name| - 1]) &&
              HasFoldSuffix(s[..|s| - LastRune(s).1], name[..|name| - 1])))
  {
    hide SameFold;
  }

  /** v is name, in lower or upper case or a mixture of both. */
  predicate Cased(v: Str, name: Str) {
    && |v| == |name|
    && forall i | 0 <= i < |name| :: v[i] == name[i] || ('a' as int <= name[i] <= 'z' as int && v[i] == name[i] - 32)
  }

  /** A name matches in any case, after any bytes. */
  lemma {:induction false} CaseIsIgnored(a: Str, v: Str, name: Str)
    requires ValidName(name) && Cased(v, name)
    ensures HasFoldSuffix(a + v, name)
    decreases |name|
  {
    hide HasFoldSuffix, SameFold;
    FoldSuffixUnfolds(a + v, name);
    if name != [] {
      var n := |name| - 1;
      assert (a + v)[..|a| + n] == a + v[..n];
      assert (a + v)[|a| + n] == v[n];
      SameFoldIs(v[n], name[n]);
      CaseIsIgnored(a, v[..n], name[..n]);
    }
  }

  /** The credential fields, written out: what ends in a spelling of one of the four names. */
  lemma CredentialIffSpelled(s: Str)
    ensures IsCredential(s) <==>
            exists f, k | f in [Ascii("password"), Ascii("pass"), Ascii("pass2"), Ascii("clave")] && 0 <= k <= |s| ::
              Spells(s[k..], f)
  {
    hide HasFoldSuffix, Spells;
    FieldsAreNames();
    forall f | f in CREDENTIAL_FIELDS
      ensures HasFoldSuffix(s, f) <==> exists k | 0 <= k <= |s| :: Spells(s[k..], f)
    {
      FoldSuffixIsSpelling(s, f);
    }
  }

  /** A match never reaches across an ASCII byte that the name does not contain. */
  lemma {:induction false} FoldSuffixIsLocal(a: Str, x: Byte, b: Str, name: Str)
    requires ValidName(name) && x !in name && LowerAscii(x)
    ensures HasFoldSuffix(a + [x] + b, name) <==> HasFoldSuffix(b, name)
    decreases |name|
  {
    hide HasFoldSuffix, LastRune, SameFold;
    FoldSuffixUnfolds(a + [x] + b, name);
    FoldSuffixUnfolds(b, name);
    if name != [] {
      if b == [] {
        TerminatorEndsNoName(a, x, name);
        assert a + [x] + b == a + [x];
      } else {
        LastRuneAfterAscii(a, x, b);
        var rest := b[..|b| - LastRune(b).1];
        assert (a + [x] + b)[..|a| + 1 + |rest|] == a + [x] + rest;
        FoldSuffixIsLocal(a, x, rest, name[..|name| - 1]);
      }
    }
  }

  lemma TerminatorEndsNoName(a: Str, x: Byte, name: Str)
    requires ValidName(name) && name != []
    requires x !in name && LowerAscii(x)
    ensures !HasFoldSuffix(a + [x], name)
  {
  }

  lemma CredentialIsLocal(a: Str, x: Byte, b: Str)
    requires x == EQUALS || IsTerminator(x)
    ensures IsCredential(a + [x] + b) <==> IsCredential(b)
  {
    FieldsAreNames();
    forall f | f in CREDENTIAL_FIELDS
      ensures HasFoldSuffix(a + [x] + b, f) <==> HasFoldSuffix(b, f)
    {
      FoldSuffixIsLocal(a, x, b, f);
    }
  }

  /** hasFoldSuffix */
  method HasFoldSuffixScan(s: Str, name: Str) returns (b: bool)
    requires ValidName(name)
    ensures b <==> HasFoldSuffix(s, name)
  {
    var rest := s;
    var i := |name|;
    assert name[..i] == name;
    while i > 0
      invariant 0 <= i <= |name|
      invariant HasFoldSuffix(s, name) <==> HasFoldSuffix(rest, name[..i])
    {
      var (r, size) := LastRune(rest);
      assert name[..i][..i - 1] == name[..i - 1];
      if size == 0 {
        return false;
      }
      var same := FoldEq(r, name[i - 1]);
      if !same {
        return false;
      }
      rest := rest[..|rest| - size];
      i := i - 1;
    }
    return true;
  }

  /** isCredentialField */
  method IsCredentialField(s: Str) returns (b: bool)
    ensures b <==> IsCredential(s)
  {
    FieldsAreNames();
    for k := 0 to |CREDENTIAL_FIELDS|
      invariant forall j | 0 <= j < k :: !HasFoldSuffix(s, CREDENTIAL_FIELDS[j])
    {
      var f := CREDENTIAL_FIELDS[k];
      var has := HasFoldSuffixScan(s, f);
      if has {
        return true;
      }
    }
    return false;
  }

  // --------------------------------------------------------------------------------------------
  // The reference form: split, mask, join
  // --------------------------------------------------------------------------------------------

  /** The index of the first terminator of s, or its length. */
  function PieceEnd(s: Str): (n: nat)
    ensures n <= |s| && (n < |s| ==> IsTerminator(s[n])) && forall i | 0 <= i < n :: !IsTerminator(s[i])
  {
    if s == [] || IsTerminator(s[0]) then 0 else 1 + PieceEnd(s[1..])
  }

  /** s[e] is an '=' right after a credential name. */
  ghost predicate CredentialEqualsAt(s: Str, e: int) {
    0 <= e < |s| && s[e] == EQUALS && IsCredential(s[..e])
  }

  /** The index of the first credential '=' of s at or after e. */
  ghost function FirstCredential(s: Str, e: nat): (r: Option<nat>)
    requires e <= |s|
    ensures r.Some? ==> e <= r.value < |s| && CredentialEqualsAt(s, r.value)
    ensures r.Some? ==> forall i | e <= i < r.value :: !CredentialEqualsAt(s, i)
    ensures r.None? ==> forall i | e <= i < |s| :: !CredentialEqualsAt(s, i)
    decreases |s| - e
  {
    if e == |s| then None
    else if CredentialEqualsAt(s, e) then Some(e)
    else FirstCredential(s, e + 1)
  }

  /** A piece with everything after its first credential '=' replaced by k stars. */
  ghost function MaskPiece(piece: Str, k: nat): Str {
    match FirstCredential(piece, 0)
    case None => piece
    case Some(e) => piece[..e + 1] + Stars(k)
  }

  /** Every piece of s masked with k stars, joined by the terminators that separated them. */
  ghost function Masked(s: Str, k: nat): Str
    decreases |s|
  {
    var n := PieceEnd(s);
    if n == |s| then MaskPiece(s, k)
    else MaskPiece(s[..n], k) + [s[n]] + Masked(s[n + 1..], k)
  }

  /** The text the sanitizer is specified to return. */
  ghost function Sanitized(s: Str): Str {
    Masked(s, MASK_LENGTH)
  }

  // --------------------------------------------------------------------------------------------
  // The scanner computes it
  // --------------------------------------------------------------------------------------------

  /** The output of the scanner for s[i..], given that s[..i] has been read: a look-behind at the whole prefix. */
  ghost function Scan(s: Str, i: nat, k: nat): Str
    requires i <= |s|
    decreases |s| - i
  {
    if i == |s| then []
    else if CredentialEqualsAt(s, i) then
      [EQUALS] + Stars(k) + Scan(s, i + 1 + PieceEnd(s[i + 1..]), k)
    else [s[i]] + Scan(s, i + 1, k)
  }

  lemma ScanOne(s: Str, i: nat, k: nat)
    requires i < |s| && !CredentialEqualsAt(s, i)
    ensures Scan(s, i, k) == [s[i]] + Scan(s, i + 1, k)
  {
  }

  /** Text without a credential '=' is copied. */
  lemma {:induction false} ScanCopies(s: Str, i: nat, j: nat, k: nat)
    requires i <= j <= |s| && forall e | i <= e < j :: !CredentialEqualsAt(s, e)
    ensures Scan(s, i, k) == s[i..j] + Scan(s, j, k)
    decreases j - i
  {
    hide CredentialEqualsAt, Scan;
    if i < j {
      ScanOne(s, i, k);
      ScanCopies(s, i + 1, j, k);
      assert s[i..j] == [s[i]] + s[i + 1..j];
    }
  }

  /** IndexByte of '=': the index of the first one, or -1. */
  method IndexEquals(s: Str) returns (j: int)
    ensures -1 <= j < |s|
    ensures j >= 0 ==> s[j] == EQUALS && forall i | 0 <= i < j :: s[i] != EQUALS
    ensures j < 0 ==> forall i | 0 <= i < |s| :: s[i] != EQUALS
  {
    for i := 0 to |s|
      invariant forall x | 0 <= x < i :: s[x] != EQUALS
    {
      if s[i] == EQUALS {
        return i;
      }
    }
    return -1;
  }

  /** IndexAny of the terminators: the index of the first one, or -1. */
  method IndexTerminator(s: Str) returns (k: int)
    ensures k == if PieceEnd(s) == |s| then -1 else PieceEnd(s)
  {
    for i := 0 to |s|
      invariant forall x | 0 <= x < i :: !IsTerminator(s[x])
    {
      if IsTerminator(s[i]) {
        return i;
      }
    }
    return -1;
  }

  /** What the scanner returns for the text after an '='. */
  ghost function AfterEquals(s: Str, eq: nat, k: nat): Str
    requires eq < |s|
  {
    if IsCredential(s[..eq]) then Stars(k) + Scan(s, eq + 1 + PieceEnd(s[eq + 1..]), k) else Scan(s, eq + 1, k)
  }

  lemma ScanAtEquals(s: Str, eq: nat, k: nat)
    requires eq < |s| && s[eq] == EQUALS
    ensures Scan(s, eq, k) == [EQUALS] + AfterEquals(s, eq, k)
  {
    hide IsCredential;
  }

  /** What the scanner does with the text up to the next '='. */
  lemma ScanToEquals(s: Str, copied: nat, i: nat, eq: nat, k: nat)
    requires copied <= i <= eq < |s| && s[eq] == EQUALS && forall e | i <= e < eq :: s[e] != EQUALS
    ensures s[copied..i] + Scan(s, i, k) == s[copied..eq + 1] + AfterEquals(s, eq, k)
  {
    hide IsCredential, AfterEquals, Scan;
    ScanCopies(s, i, eq, k);
    ScanAtEquals(s, eq, k);
    assert s[copied..eq + 1] == s[copied..i] + s[i..eq] + [EQUALS];
  }

  /** The scanner has read s[..i], has written sb, and has yet to copy s[copied..i]. */
  ghost predicate HasScanned(s: Str, sb: Str, copied: nat, i: nat) {
    && copied <= i <= |s|
    && (copied == 0 ==> sb == [])
    && sb + (s[copied..i] + Scan(s, i, MASK_LENGTH)) == Sanitized(s)
  }

  lemma ScanStart(s: Str)
    ensures HasScanned(s, [], 0, 0)
  {
    hide IsCredential, Scan, Masked;
    ScanIsMasked(s, 0, MASK_LENGTH);
    assert s[0..] == s;
  }

  lemma ScanField(s: Str, sb: Str, copied: nat, i: nat, eq: nat)
    requires HasScanned(s, sb, copied, i)
    requires i <= eq < |s| && s[eq] == EQUALS && forall e | i <= e < eq :: s[e] != EQUALS
    ensures !IsCredential(s[..eq]) ==> HasScanned(s, sb, copied, eq + 1)
    ensures IsCredential(s[..eq]) ==>
              var end := eq + 1 + PieceEnd(s[eq + 1..]);
              HasScanned(s, sb + s[copied..eq + 1] + Stars(MASK_LENGTH), end, end)
  {
    hide IsCredential, Scan, Masked, PieceEnd;
    ScanToEquals(s, copied, i, eq, MASK_LENGTH);
    var end := eq + 1 + PieceEnd(s[eq + 1..]);
    WriteMask(sb, s[copied..eq + 1], Stars(MASK_LENGTH), Scan(s, end, MASK_LENGTH));
    assert s[end..end] == [];
  }

  lemma ScanFinish(s: Str, sb: Str, copied: nat, i: nat)
    requires HasScanned(s, sb, copied, i) && forall e | i <= e < |s| :: s[e] != EQUALS
    ensures sb + s[copied..] == Sanitized(s) && (copied == 0 ==> s == Sanitized(s))
  {
    hide IsCredential, Scan, Masked;
    ScanRest(s, copied, i, MASK_LENGTH);
    assert copied == 0 ==> sb + s[copied..] == s;
  }

  /** sanitizeFields */
  method SanitizeFields(s: Str) returns (r: Str)
    ensures r == Sanitized(s)
  {
    hide IsCredential, HasScanned, Sanitized, PieceEnd;
    ScanStart(s);
    var sb: Str := [];
    var copied := 0;
    var i := 0;
    while true
      invariant 0 <= copied <= i <= |s| && HasScanned(s, sb, copied, i)
      decreases |s| - i
    {
      var j := IndexEquals(s[i..]);
      assert forall e | i <= e < |s| :: s[e] == s[i..][e - i];
      if j < 0 {
        break;
      }
      var eq := i + j;
      ScanField(s, sb, copied, i, eq);
      i := eq + 1;
      var credential := IsCredentialField(s[..eq]);
      if !credential {
        continue;
      }
      sb := sb + s[copied..i] + Stars(MASK_LENGTH);
      var k := IndexTerminator(s[i..]);
      if k >= 0 {
        i := i + k;
      } else {
        i := |s|;
      }
      copied := i;
    }
    ScanFinish(s, sb, copied, i);
    if copied == 0 {
      return s;
    }
    r := sb + s[copied..];
  }

  lemma WriteMask(sb: Str, copy: Str, mask: Str, rest: Str)
    ensures sb + (copy + (mask + rest)) == sb + copy + mask + ([] + rest)
  {
  }

  lemma ScanRest(s: Str, copied: nat, i: nat, k: nat)
    requires copied <= i <= |s| && forall e | i <= e < |s| :: s[e] != EQUALS
    ensures s[copied..i] + Scan(s, i, k) == s[copied..]
  {
    hide IsCredential;
    ScanCopies(s, i, |s|, k);
  }

  /** The look-behind stops at the start of a piece: a credential '=' of the text is one of its piece. */
  lemma CredentialInPiece(t: Str, b: nat, e: nat, end: nat)
    requires b <= e < end <= |t| && (b == 0 || IsTerminator(t[b - 1]))
    ensures CredentialEqualsAt(t, e) <==> CredentialEqualsAt(t[b..end], e - b)
  {
    hide IsCredential;
    assert t[b..end][..e - b] == t[b..e];
    if b == 0 {
      assert t[..e] == t[b..e];
    } else {
      assert t[..e] == t[..b - 1] + [t[b - 1]] + t[b..e];
      CredentialIsLocal(t[..b - 1], t[b - 1], t[b..e]);
    }
  }

  /** Masked, one piece at a time. */
  lemma MaskedOne(s: Str, k: nat)
    ensures PieceEnd(s) == |s| ==> Masked(s, k) == MaskPiece(s, k)
    ensures PieceEnd(s) < |s| ==>
              Masked(s, k) == MaskPiece(s[..PieceEnd(s)], k) + ([s[PieceEnd(s)]] + Masked(s[PieceEnd(s) + 1..], k))
  {
    hide MaskPiece, PieceEnd, IsCredential;
    var n := PieceEnd(s);
    if n < |s| {
      Associative(MaskPiece(s[..n], k), [s[n]], Masked(s[n + 1..], k));
    }
  }

  lemma Associative(a: Str, b: Str, c: Str)
    ensures a + b + c == a + (b + c)
  {
  }

  /** Scanning the end of a text from the start of a piece sanitizes that end on its own. */
  lemma {:induction false} ScanIsMasked(t: Str, b: nat, k: nat)
    requires b <= |t| && (b == 0 || IsTerminator(t[b - 1]))
    ensures Scan(t, b, k) == Masked(t[b..], k)
    decreases |t| - b
  {
    hide MaskPiece, Masked, Scan;
    var n := PieceEnd(t[b..]);
    var end := b + n;
    SlicePieces(t, b);
    ScanPiece(t, b, end, k);
    MaskedOne(t[b..], k);
    if end == |t| {
      ScanEnd(t, k);
    } else {
      ScanTerminator(t, end, k);
      ScanIsMasked(t, end + 1, k);
    }
  }

  lemma SlicePieces(t: Str, b: nat)
    requires b <= |t|
    ensures var n := PieceEnd(t[b..]);
            && t[b..][..n] == t[b..b + n]
            && (forall i | b <= i < b + n :: !IsTerminator(t[i]))
            && (b + n == |t| ==> t[b..] == t[b..b + n])
            && (b + n < |t| ==> IsTerminator(t[b + n]) && t[b..][n] == t[b + n] && t[b..][n + 1..] == t[b + n + 1..])
  {
  }

  lemma ScanEnd(t: Str, k: nat)
    ensures Scan(t, |t|, k) == []
  {
  }

  lemma ScanTerminator(t: Str, i: nat, k: nat)
    requires i < |t| && IsTerminator(t[i])
    ensures Scan(t, i, k) == [t[i]] + Scan(t, i + 1, k)
  {
  }

  lemma ScanPiece(t: Str, b: nat, end: nat, k: nat)
    requires b <= end <= |t| && (b == 0 || IsTerminator(t[b - 1]))
    requires forall i | b <= i < end :: !IsTerminator(t[i])
    requires end == |t| || IsTerminator(t[end])
    ensures Scan(t, b, k) == MaskPiece(t[b..end], k) + Scan(t, end, k)
  {
    hide IsCredential, CredentialEqualsAt, Scan;
    forall e | b <= e < end
      ensures CredentialEqualsAt(t, e) <==> CredentialEqualsAt(t[b..end], e - b)
    {
      CredentialInPiece(t, b, e, end);
    }
    match FirstCredential(t[b..end], 0)
    case None =>
      ScanCopies(t, b, end, k);
    case Some(e) =>
      ScanMasks(t, b, b + e, end, k);
      assert t[b..end][..e + 1] == t[b..b + e + 1];
  }

  /** The scanner copies a piece up to its first credential '=' and replaces the rest with the mask. */
  lemma ScanMasks(t: Str, b: nat, e: nat, end: nat, k: nat)
    requires b <= e < end <= |t| && CredentialEqualsAt(t, e)
    requires forall i | b <= i < e :: !CredentialEqualsAt(t, i)
    requires forall i | b <= i < end :: !IsTerminator(t[i])
    requires end == |t| || IsTerminator(t[end])
    ensures Scan(t, b, k) == t[b..e + 1] + Stars(k) + Scan(t, end, k)
  {
    hide IsCredential, Scan;
    PieceEndAt(t, e + 1, end);
    ScanToCredential(t, b, e, k);
  }

  lemma ScanToCredential(t: Str, b: nat, e: nat, k: nat)
    requires b <= e < |t| && CredentialEqualsAt(t, e)
    requires forall i | b <= i < e :: !CredentialEqualsAt(t, i)
    ensures Scan(t, b, k) == t[b..e + 1] + Stars(k) + Scan(t, e + 1 + PieceEnd(t[e + 1..]), k)
  {
    hide IsCredential, Scan;
    ScanCopies(t, b, e, k);
    ScanAtEquals(t, e, k);
    assert t[b..e + 1] == t[b..e] + [EQUALS];
  }

  lemma PieceEndAt(t: Str, b: nat, end: nat)
    requires b <= end <= |t|
    requires forall i | b <= i < end :: !IsTerminator(t[i])
    requires end == |t| || IsTerminator(t[end])
    ensures PieceEnd(t[b..]) == end - b
  {
  }

  // --------------------------------------------------------------------------------------------
  // Laws of the sanitizer
  // --------------------------------------------------------------------------------------------

  /** Sanitizing distributes over concatenation at any terminator, although the look-behind reads the whole prefix. */
  lemma {:induction false} MaskedDistributes(a: Str, x: Byte, b: Str, k: nat)
    requires IsTerminator(x)
    ensures Masked(a + [x] + b, k) == Masked(a, k) + ([x] + Masked(b, k))
    decreases |a|
  {
    hide MaskPiece, Masked;
    var s, n := a + [x] + b, PieceEnd(a);
    assert forall i | 0 <= i < |a| :: s[i] == a[i];
    PieceEndAt(s, 0, n);
    assert s[0..] == s && s[..n] == a[..n];
    MaskedOne(s, k);
    MaskedOne(a, k);
    if n == |a| {
      assert a[..n] == a && s[n] == x && s[n + 1..] == b;
    } else {
      MaskedDistributes(a[n + 1..], x, b, k);
      DropFront(a, [x] + b, n + 1);
      assert s == a + ([x] + b) && a[n + 1..] + ([x] + b) == a[n + 1..] + [x] + b;
      Regroup(MaskPiece(a[..n], k), [a[n]], Masked(a[n + 1..], k), [x] + Masked(b, k));
    }
  }

  lemma DropFront(a: Str, rest: Str, n: nat)
    requires n <= |a|
    ensures (a + rest)[n..] == a[n..] + rest
  {
  }

  lemma Regroup(p: Str, x: Str, m: Str, rest: Str)
    ensures p + (x + (m + rest)) == p + (x + m) + rest
  {
  }

  lemma SanitizedDistributes(a: Str, x: Byte, b: Str)
    requires IsTerminator(x)
    ensures Sanitized(a + [x] + b) == Sanitized(a) + [x] + Sanitized(b)
  {
    hide Masked;
    MaskedDistributes(a, x, b, MASK_LENGTH);
  }

  /**
   Two-run independence: the value of a credential field, up to the next terminator, leaves no trace
   in the output, whatever precedes the field (it may itself lie inside a masked value).
   */
  lemma {:induction false} SecretIndependence(a: Str, v: Str, w: Str, rest: Str)
    requires IsCredential(a)
    requires forall b | b in v || b in w :: !IsTerminator(b)
    requires rest == [] || IsTerminator(rest[0])
    ensures Sanitized(a + [EQUALS] + v + rest) == Sanitized(a + [EQUALS] + w + rest)
  {
    hide IsCredential, Masked;
    var s, t := a + [EQUALS] + v, a + [EQUALS] + w;
    SameSecretPiece(a, v, w);
    if rest == [] {
      assert s + rest == s && t + rest == t;
    } else {
      assert s + rest == s + [rest[0]] + rest[1..];
      assert t + rest == t + [rest[0]] + rest[1..];
      SanitizedDistributes(s, rest[0], rest[1..]);
      SanitizedDistributes(t, rest[0], rest[1..]);
    }
  }

  /** SecretIndependence when nothing follows the value. */
  lemma {:induction false} SameSecretPiece(a: Str, v: Str, w: Str)
    requires IsCredential(a)
    requires forall b | b in v || b in w :: !IsTerminator(b)
    ensures Sanitized(a + [EQUALS] + v) == Sanitized(a + [EQUALS] + w)
    decreases |a|
  {
    hide IsCredential, MaskPiece, PieceEnd;
    var n := PieceEnd(a);
    var s, t := a + [EQUALS] + v, a + [EQUALS] + w;
    if n == |a| {
      PieceEndAt(s, 0, |s|);
      PieceEndAt(t, 0, |t|);
      assert s[0..] == s && t[0..] == t;
      MaskHidesValue(a, v, w, MASK_LENGTH);
    } else {
      var front, back := a[..n], a[n + 1..];
      assert a == front + [a[n]] + back;
      CredentialIsLocal(front, a[n], back);
      SameSecretPiece(back, v, w);
      assert s == front + [a[n]] + (back + [EQUALS] + v);
      assert t == front + [a[n]] + (back + [EQUALS] + w);
      SanitizedDistributes(front, a[n], back + [EQUALS] + v);
      SanitizedDistributes(front, a[n], back + [EQUALS] + w);
    }
  }

  lemma MaskHidesValue(a: Str, v: Str, w: Str, k: nat)
    requires IsCredential(a)
    ensures MaskPiece(a + [EQUALS] + v, k) == MaskPiece(a + [EQUALS] + w, k)
  {
    hide IsCredential;
    var s, t := a + [EQUALS] + v, a + [EQUALS] + w;
    forall e | 0 <= e <= |a|
      ensures s[..e] == t[..e] && s[e] == t[e] && CredentialEqualsAt(s, e) == CredentialEqualsAt(t, e)
    {
    }
    assert s[..|a|] == a;
    assert CredentialEqualsAt(s, |a|);
    assert s[..|a| + 1] == t[..|a| + 1];
  }

  /** Whether an '=' is a credential one depends on nothing after it. */
  lemma SameUpTo(s: Str, t: Str, e: nat)
    requires e < |s| && e < |t| && s[..e + 1] == t[..e + 1]
    ensures CredentialEqualsAt(s, e) <==> CredentialEqualsAt(t, e)
  {
    hide IsCredential;
    assert s[..e] == s[..e + 1][..e] == t[..e];
    assert s[e] == s[..e + 1][e] == t[e];
  }

  /** The first credential '=' of a piece is still the first one when the piece is cut right after it. */
  lemma CutAfterFirst(p: Str, e: nat)
    requires e < |p| && FirstCredential(p, 0) == Some(e)
    ensures FirstCredential(p[..e + 1], 0) == Some(e)
  {
    hide CredentialEqualsAt, FirstCredential;
    var q := p[..e + 1];
    SameUpTo(q, p, e);
    var r := FirstCredential(q, 0);
    assert r.Some? && r.value <= e;
    assert q[..r.value + 1] == p[..r.value + 1];
    SameUpTo(q, p, r.value);
  }

  lemma {:induction false} StarsStay(m: nat, j: nat)
    ensures Masked(Stars(m), j) == Stars(m)
    decreases m
  {
    hide IsCredential, MaskPiece, Masked, PieceEnd;
    MaskedOne(Stars(m), j);
    if m == 0 {
      EmptyPiece(j);
    } else {
      PieceEndAt(Stars(m), 0, 0);
      assert Stars(m)[0..] == Stars(m) && Stars(m)[..0] == [] && Stars(m)[1..] == Stars(m - 1);
      EmptyPiece(j);
      StarsStay(m - 1, j);
    }
  }

  lemma EmptyPiece(j: nat)
    ensures MaskPiece([], j) == []
  {
  }

  /** Masking a masked piece lengthens its mask. */
  lemma RemaskPiece(p: Str, k: nat, j: nat)
    requires forall i | 0 <= i < |p| :: !IsTerminator(p[i])
    ensures Masked(MaskPiece(p, k), j) == MaskPiece(p, j + k)
  {
    hide IsCredential, Masked;
    match FirstCredential(p, 0)
    case None =>
      PieceEndAt(p, 0, |p|);
      assert p[0..] == p;
      MaskedOne(p, j);
    case Some(e) =>
      var q := p[..e + 1];
      CutAfterFirst(p, e);
      PieceEndAt(q, 0, |q|);
      assert q[0..] == q;
      MaskedOne(q, j);
      assert q[..e + 1] == q;
      if k == 0 {
        assert q + Stars(0) == q;
      } else {
        assert q + Stars(k) == q + [STAR] + Stars(k - 1);
        SanitizeStarTail(q, k, j);
        assert Stars(j) + ([STAR] + Stars(k - 1)) == Stars(j + k);
      }
  }

  lemma SanitizeStarTail(q: Str, k: nat, j: nat)
    requires k > 0
    ensures Masked(q + [STAR] + Stars(k - 1), j) == Masked(q, j) + ([STAR] + Stars(k - 1))
  {
    hide Masked;
    MaskedDistributes(q, STAR, Stars(k - 1), j);
    StarsStay(k - 1, j);
  }

  /** Sanitizing a sanitized text only lengthens the masks. */
  lemma {:induction false} Remask(s: Str, k: nat, j: nat)
    ensures Masked(Masked(s, k), j) == Masked(s, j + k)
    decreases |s|
  {
    hide MaskPiece, Masked;
    var n := PieceEnd(s);
    MaskedOne(s, k);
    MaskedOne(s, j + k);
    RemaskPiece(s[..n], k, j);
    if n == |s| {
      assert s[..n] == s;
    } else {
      Remask(s[n + 1..], k, j);
      var m, rest := MaskPiece(s[..n], k), Masked(s[n + 1..], k);
      assert m + ([s[n]] + rest) == m + [s[n]] + rest;
      MaskedDistributes(m, s[n], rest, j);
    }
  }

  ghost function Iterated(s: Str, n: nat): Str {
    if n == 0 then s else Sanitized(Iterated(s, n - 1))
  }

  /** Repetition: after n > 0 applications the text is masked as after one, except that every mask has 8n stars. */
  lemma {:induction false} RepeatedSanitizing(s: Str, n: nat)
    requires n > 0
    ensures Iterated(s, n) == Masked(s, MASK_LENGTH * n)
    decreases n
  {
    hide Masked;
    if n > 1 {
      RepeatedSanitizing(s, n - 1);
      Remask(s, MASK_LENGTH * (n - 1), MASK_LENGTH);
    } else {
      assert Iterated(s, 0) == s;
    }
  }

  /** Output law: in the output every credential '=' is directly followed by its k stars. */
  lemma {:induction false} OutputLaw(s: Str, k: nat, e: nat)
    requires CredentialEqualsAt(Masked(s, k), e)
    ensures e + 1 + k <= |Masked(s, k)| && Masked(s, k)[e + 1..e + 1 + k] == Stars(k)
    decreases |s|
  {
    hide IsCredential, MaskPiece, Masked;
    var n, out := PieceEnd(s), Masked(s, k);
    var m := MaskPiece(s[..n], k);
    MaskedOne(s, k);
    if n == |s| {
      assert s[..n] == s && m == m + [] && out == m;
      PieceOutput(s, [], k, e);
    } else {
      var rest := Masked(s[n + 1..], k);
      if e < |m| {
        PieceOutput(s[..n], [s[n]] + rest, k, e);
      } else {
        assert out[|m|] == s[n];
        assert out == m + [s[n]] + rest;
        AfterTerminator(m, s[n], rest, e);
        OutputLaw(s[n + 1..], k, e - |m| - 1);
        assert out[e + 1..e + 1 + k] == rest[e - |m|..e - |m| + k];
      }
    }
  }

  lemma AfterTerminator(m: Str, x: Byte, rest: Str, e: nat)
    requires IsTerminator(x) && e >= |m| && CredentialEqualsAt(m + [x] + rest, e)
    ensures e > |m| && CredentialEqualsAt(rest, e - |m| - 1)
  {
    hide IsCredential;
    var out := m + [x] + rest;
    assert out[|m|] == x;
    assert out[..e] == m + [x] + rest[..e - |m| - 1];
    CredentialIsLocal(m, x, rest[..e - |m| - 1]);
  }

  lemma PieceOutput(p: Str, rest: Str, k: nat, e: nat)
    requires e < |MaskPiece(p, k)| && CredentialEqualsAt(MaskPiece(p, k) + rest, e)
    ensures e + 1 + k <= |MaskPiece(p, k)| && (MaskPiece(p, k) + rest)[e + 1..e + 1 + k] == Stars(k)
  {
    hide IsCredential;
    var out := MaskPiece(p, k) + rest;
    match FirstCredential(p, 0)
    case None =>
      assert out[..e + 1] == p[..e + 1];
      SameUpTo(out, p, e);
    case Some(f) =>
      assert forall i | f < i <= f + k :: out[i] == STAR;
      assert out[f + 1..f + 1 + k] == Stars(k);
      if e < f {
        assert out[..e + 1] == p[..e + 1];
        SameUpTo(out, p, e);
      }
  }

  // --------------------------------------------------------------------------------------------
  // The sanitizer hides exactly the values of the credential fields
  // --------------------------------------------------------------------------------------------

  /** The pieces are equal, or are the same up to and including the same first credential '='. */
  ghost predicate SamePiece(p: Str, q: Str) {
    p == q ||
    var e := FirstCredential(p, 0);
    e.Some? && FirstCredential(q, 0) == e && p[..e.value + 1] == q[..e.value + 1]
  }

  /** s and t are the same text, up to the values of any number of credential fields. */
  ghost predicate SameButSecrets(s: Str, t: Str)
    decreases |s|
  {
    var n, m := PieceEnd(s), PieceEnd(t);
    && SamePiece(s[..n], t[..m])
    && (n == |s| <==> m == |t|)
    && (n < |s| ==> s[n] == t[m] && SameButSecrets(s[n + 1..], t[m + 1..]))
  }

  /** The output after the first piece. */
  ghost function MaskedRest(s: Str, k: nat): Str {
    var n := PieceEnd(s);
    if n == |s| then [] else [s[n]] + Masked(s[n + 1..], k)
  }

  lemma MaskedAsRest(s: Str, k: nat)
    ensures Masked(s, k) == MaskPiece(s[..PieceEnd(s)], k) + MaskedRest(s, k)
  {
    hide MaskPiece, PieceEnd, Masked;
    MaskedOne(s, k);
    assert PieceEnd(s) == |s| ==> s[..PieceEnd(s)] == s;
  }

  lemma EmptyRest(s: Str, k: nat)
    ensures PieceEnd(s) == |s| <==> MaskedRest(s, k) == []
  {
    hide PieceEnd, Masked;
  }

  lemma RestParts(s: Str, k: nat)
    requires PieceEnd(s) < |s|
    ensures var rest := MaskedRest(s, k);
            rest != [] && rest[0] == s[PieceEnd(s)] && rest[1..] == Masked(s[PieceEnd(s) + 1..], k)
  {
    hide PieceEnd, Masked;
  }

  lemma SplitEqual(a: Str, b: Str)
    requires a != [] && b != []
    ensures a == b <==> a[0] == b[0] && a[1..] == b[1..]
  {
    assert a == [a[0]] + a[1..] && b == [b[0]] + b[1..];
  }

  lemma EqualRests(s: Str, t: Str, k: nat)
    ensures var n, m := PieceEnd(s), PieceEnd(t);
            MaskedRest(s, k) == MaskedRest(t, k) <==>
            && (n == |s| <==> m == |t|)
            && (n < |s| && m < |t| ==> s[n] == t[m] && Masked(s[n + 1..], k) == Masked(t[m + 1..], k))
  {
    hide PieceEnd, Masked, MaskedRest;
    var n, m := PieceEnd(s), PieceEnd(t);
    EmptyRest(s, k);
    EmptyRest(t, k);
    if n < |s| && m < |t| {
      RestParts(s, k);
      RestParts(t, k);
      SplitEqual(MaskedRest(s, k), MaskedRest(t, k));
    }
  }

  /** The first piece of the output is that of the text, cut right after its first credential '='. */
  lemma OutputPiece(s: Str, k: nat)
    requires k > 0
    ensures var piece, out := s[..PieceEnd(s)], Masked(s, k);
            match FirstCredential(piece, 0)
            case None => PieceEnd(out) == |piece| && out[..|piece|] == piece && out[|piece|..] == MaskedRest(s, k)
            case Some(e) =>
              && PieceEnd(out) == e + 1
              && out[..e + 1] == piece[..e + 1]
              && out[e + 1..] == Stars(k) + MaskedRest(s, k)
  {
    hide FirstCredential, Masked, PieceEnd, MaskPiece, MaskedRest, CredentialEqualsAt;
    var piece, rest := s[..PieceEnd(s)], MaskedRest(s, k);
    MaskedAsRest(s, k);
    PieceAndRest(s, k);
    MaskPieceIs(piece, k);
    match FirstCredential(piece, 0)
    case None =>
      FirstPieceOf(piece, rest);
    case Some(e) =>
      Associative(piece[..e + 1], Stars(k), rest);
      FirstPieceOf(piece[..e + 1], Stars(k) + rest);
  }

  lemma PieceAndRest(s: Str, k: nat)
    ensures forall b | b in s[..PieceEnd(s)] :: !IsTerminator(b)
    ensures MaskedRest(s, k) == [] || IsTerminator(MaskedRest(s, k)[0])
  {
    hide PieceEnd, Masked;
  }

  lemma MaskPieceIs(piece: Str, k: nat)
    ensures match FirstCredential(piece, 0)
            case None => MaskPiece(piece, k) == piece
            case Some(e) => MaskPiece(piece, k) == piece[..e + 1] + Stars(k)
  {
    hide FirstCredential;
  }

  lemma FirstPieceOf(head: Str, rest: Str)
    requires forall b | b in head :: !IsTerminator(b)
    requires rest == [] || IsTerminator(rest[0])
    ensures PieceEnd(head + rest) == |head| && (head + rest)[..|head|] == head && (head + rest)[|head|..] == rest
  {
    hide PieceEnd;
    var out := head + rest;
    assert forall i | 0 <= i < |head| :: out[i] in head;
    assert out[|head|..] == rest;
    PieceEndAt(out, 0, |head|);
    assert out[0..] == out;
  }

  /** Equal outputs come from pieces that are equal up to the value. */
  lemma EqualOutputs(s: Str, t: Str, k: nat)
    requires k > 0 && Masked(s, k) == Masked(t, k)
    ensures SamePiece(s[..PieceEnd(s)], t[..PieceEnd(t)]) && MaskedRest(s, k) == MaskedRest(t, k)
  {
    hide FirstCredential, Masked, PieceEnd, MaskedRest, CredentialEqualsAt;
    var p, q, out := s[..PieceEnd(s)], t[..PieceEnd(t)], Masked(s, k);
    OutputPiece(s, k);
    OutputPiece(t, k);
    OutputFirst(p, out);
    OutputFirst(q, out);
    if FirstCredential(p, 0).Some? {
      DropStars(k, MaskedRest(s, k), MaskedRest(t, k));
    }
  }

  /** The first piece of the output has the first credential '=' of the text's. */
  lemma OutputFirst(p: Str, out: Str)
    requires FirstCredential(p, 0).None? ==> PieceEnd(out) == |p| && out[..|p|] == p
    requires FirstCredential(p, 0).Some? ==>
               var e := FirstCredential(p, 0).value; PieceEnd(out) == e + 1 && out[..e + 1] == p[..e + 1]
    ensures FirstCredential(out[..PieceEnd(out)], 0) == FirstCredential(p, 0)
  {
    hide FirstCredential, PieceEnd, CredentialEqualsAt;
    if FirstCredential(p, 0).Some? {
      CutAfterFirst(p, FirstCredential(p, 0).value);
    }
  }

  lemma DropStars(k: nat, a: Str, b: Str)
    requires Stars(k) + a == Stars(k) + b
    ensures a == b
  {
    assert (Stars(k) + a)[k..] == a && (Stars(k) + b)[k..] == b;
  }

  lemma SamePieceSameMask(p: Str, q: Str, k: nat)
    requires SamePiece(p, q)
    ensures MaskPiece(p, k) == MaskPiece(q, k)
  {
    hide FirstCredential;
  }

  /**
   Two texts are sanitized to the same text exactly when they are the same up to the values of credential
   fields, however many: the sanitizer hides all of those values and nothing else.
   */
  lemma {:induction false} HidesExactlySecrets(s: Str, t: Str, k: nat)
    requires k > 0
    ensures Masked(s, k) == Masked(t, k) <==> SameButSecrets(s, t)
    decreases |s|
  {
    hide Masked, PieceEnd, SamePiece, MaskedRest, MaskPiece;
    var n, m := PieceEnd(s), PieceEnd(t);
    EqualRests(s, t, k);
    MaskedAsRest(s, k);
    MaskedAsRest(t, k);
    if n < |s| && m < |t| {
      HidesExactlySecrets(s[n + 1..], t[m + 1..], k);
    }
    if Masked(s, k) == Masked(t, k) {
      EqualOutputs(s, t, k);
    }
    if SameButSecrets(s, t) {
      SamePieceSameMask(s[..n], t[..m], k);
    }
  }

  /** Changing the value of one field is an instance, wherever the field stands. */
  lemma OneSecret(a: Str, v: Str, w: Str, rest: Str)
    requires IsCredential(a)
    requires forall b | b in v || b in w :: !IsTerminator(b)
    requires rest == [] || IsTerminator(rest[0])
    ensures SameButSecrets(a + [EQUALS] + v + rest, a + [EQUALS] + w + rest)
  {
    hide IsCredential, Masked, SameButSecrets;
    SecretIndependence(a, v, w, rest);
    HidesExactlySecrets(a + [EQUALS] + v + rest, a + [EQUALS] + w + rest, MASK_LENGTH);
  }

  /** The bytes at which a masked value ends. */
  predicate Ends(b: Byte) {
    b == '*' as int || b == '&' as int || b == '\n' as int
  }

  /**
   What masking does, written out: after a text without a credential '=', a field whose name is given in any
   case keeps its name, its value up to the next '*', '&' or newline becomes eight stars, and the rest is
   sanitized on its own.
   */
  lemma CredentialIsMasked(a: Str, v: Str, w: Str, rest: Str, name: Str)
    requires name in [Ascii("password"), Ascii("pass"), Ascii("pass2"), Ascii("clave")] && Cased(v, name)
    requires Clean(a + v) && (forall b | b in w :: !Ends(b)) && (rest == [] || Ends(rest[0]))
    ensures Sanitized(a + v + [EQUALS] + w + rest) == a + v + [EQUALS] + Ascii("********") + Sanitized(rest)
  {
    hide HasFoldSuffix, Scan, Masked, PieceEnd;
    FieldsAreNames();
    CaseIsIgnored(a, v, name);
    var head := a + v;
    assert IsCredential(head);
    MaskedAfter(head, w, rest);
    assert Stars(MASK_LENGTH) == Ascii("********");
  }

  lemma MaskedAfter(head: Str, w: Str, rest: Str)
    requires IsCredential(head) && Clean(head)
    requires (forall b | b in w :: !IsTerminator(b)) && (rest == [] || IsTerminator(rest[0]))
    ensures Sanitized(head + [EQUALS] + w + rest) == head + [EQUALS] + Stars(MASK_LENGTH) + Sanitized(rest)
  {
    hide IsCredential, Scan, Masked, PieceEnd;
    var s := head + [EQUALS] + w + rest;
    var n, end := |head|, |head| + 1 + |w|;
    assert s[..n] == head && s[n] == EQUALS && s[n + 1..] == w + rest && s[end..] == rest;
    ScanIsMasked(s, 0, MASK_LENGTH);
    assert s[0..] == s;
    forall e | 0 <= e < n
      ensures !CredentialEqualsAt(s, e)
    {
      assert s[..e + 1] == head[..e + 1];
      SameUpTo(s, head, e);
    }
    ScanCopies(s, 0, n, MASK_LENGTH);
    ScanAtEquals(s, n, MASK_LENGTH);
    FirstPieceOf(w, rest);
    ScanAfterValue(s, end, rest);
    assert s[0..n] == head;
  }

  lemma ScanAfterValue(s: Str, end: nat, rest: Str)
    requires end <= |s| && s[end..] == rest && (rest == [] || IsTerminator(rest[0]))
    ensures Scan(s, end, MASK_LENGTH) == Sanitized(rest)
  {
    hide IsCredential, Scan, Masked, PieceEnd;
    if rest == [] {
      ScanEnd(s, MASK_LENGTH);
      ScanIsMasked([], 0, MASK_LENGTH);
      ScanEnd([], MASK_LENGTH);
      assert rest[0..] == rest;
    } else {
      ScanTerminator(s, end, MASK_LENGTH);
      ScanIsMasked(s, end + 1, MASK_LENGTH);
      assert s[end + 1..] == rest[1..];
      ScanTerminator(rest, 0, MASK_LENGTH);
      ScanIsMasked(rest, 0, MASK_LENGTH);
      ScanIsMasked(rest, 1, MASK_LENGTH);
      assert rest[0..] == rest;
    }
  }

  lemma PasswordInUpperCase()
    ensures Cased(Ascii("PASSWORD"), Ascii("password")) && Clean(Ascii("PASSWORD"))
    ensures forall b | b in Ascii("secret") :: !Ends(b)
  {
    hide IsCredential;
  }

  lemma AsciiField(name: string, value: string)
    requires forall i | 0 <= i < |name| :: name[i] < 128 as char
    requires forall i | 0 <= i < |value| :: value[i] < 128 as char
    ensures Ascii(name + "=" + value) == Ascii(name) + [EQUALS] + Ascii(value)
  {
  }

  /** For example. */
  lemma UpperCaseIsMasked()
    ensures Sanitized(Ascii("PASSWORD=secret")) == Ascii("PASSWORD=********")
  {
    hide Masked, Ascii, Cased, Clean;
    var v, w := Ascii("PASSWORD"), Ascii("secret");
    PasswordInUpperCase();
    assert [] + v == v && v + [EQUALS] + w + [] == v + [EQUALS] + w;
    CredentialIsMasked([], v, w, [], Ascii("password"));
    ScanAfterValue([], 0, []);
    ScanEnd([], MASK_LENGTH);
    AsciiField("PASSWORD", "secret");
    AsciiField("PASSWORD", "********");
    assert "PASSWORD" + "=" + "secret" == "PASSWORD=secret" && "PASSWORD" + "=" + "********" == "PASSWORD=********";
    var out := v + [EQUALS] + Ascii("********");
    assert [] + v + [EQUALS] + Ascii("********") + [] == out;
  }

  // --------------------------------------------------------------------------------------------
  // When the sanitizer changes nothing
  // --------------------------------------------------------------------------------------------

  /** The number of pieces of s that have a credential '='. */
  ghost function MaskCount(s: Str): nat
    decreases |s|
  {
    var n := PieceEnd(s);
    (if FirstCredential(s[..n], 0).Some? then 1 else 0) + if n == |s| then 0 else MaskCount(s[n + 1..])
  }

  /** The masks are all that depends on their length. */
  lemma {:induction false} MaskedLength(s: Str, k: nat)
    ensures |Masked(s, k)| == |Masked(s, 0)| + k * MaskCount(s)
    decreases |s|
  {
    hide IsCredential, Masked, FirstCredential, MaskPiece, PieceEnd, MaskCount;
    var n := PieceEnd(s);
    MaskCountOne(s);
    MaskedOne(s, k);
    MaskedOne(s, 0);
    MaskedPieceLength(s[..n], k);
    if n == |s| {
      assert s[..n] == s;
    } else {
      MaskedLength(s[n + 1..], k);
      Distribute(k, if FirstCredential(s[..n], 0).Some? then 1 else 0, MaskCount(s[n + 1..]));
    }
  }

  lemma MaskedPieceLength(piece: Str, k: nat)
    ensures |MaskPiece(piece, k)| == |MaskPiece(piece, 0)| + if FirstCredential(piece, 0).Some? then k else 0
  {
    hide IsCredential;
  }

  lemma Distribute(k: nat, a: nat, b: nat)
    ensures k * (a + b) == k * a + k * b
  {
  }

  ghost predicate Clean(s: Str) {
    forall e | 0 <= e < |s| :: !CredentialEqualsAt(s, e)
  }

  lemma PieceIsClean(t: Str, b: nat, end: nat)
    requires b <= end <= |t| && (b == 0 || IsTerminator(t[b - 1]))
    ensures FirstCredential(t[b..end], 0).None? <==> forall e | b <= e < end :: !CredentialEqualsAt(t, e)
  {
    hide CredentialEqualsAt, FirstCredential;
    forall e | b <= e < end
      ensures CredentialEqualsAt(t, e) <==> CredentialEqualsAt(t[b..end], e - b)
    {
      CredentialInPiece(t, b, e, end);
    }
    match FirstCredential(t[b..end], 0)
    case None =>
    case Some(f) => assert CredentialEqualsAt(t, b + f);
  }

  lemma MaskCountOne(s: Str)
    ensures var n := PieceEnd(s);
            var first := if FirstCredential(s[..n], 0).Some? then 1 else 0;
            MaskCount(s) == first + if n == |s| then 0 else MaskCount(s[n + 1..])
  {
    hide FirstCredential, PieceEnd;
  }

  lemma {:induction false} NoMaskIsClean(t: Str, b: nat)
    requires b <= |t| && (b == 0 || IsTerminator(t[b - 1]))
    ensures MaskCount(t[b..]) == 0 <==> forall e | b <= e < |t| :: !CredentialEqualsAt(t, e)
    decreases |t| - b
  {
    hide CredentialEqualsAt, FirstCredential, MaskCount;
    var n := PieceEnd(t[b..]);
    MaskCountOne(t[b..]);
    SlicePieces(t, b);
    PieceIsClean(t, b, b + n);
    if b + n < |t| {
      NoMaskIsClean(t, b + n + 1);
      TerminatorIsNoEquals(t, b + n);
    }
  }

  lemma TerminatorIsNoEquals(t: Str, i: nat)
    requires i < |t| && IsTerminator(t[i])
    ensures !CredentialEqualsAt(t, i)
  {
  }

  /**
   The sanitizer is not idempotent in general: a second application changes nothing exactly when the
   first one changed nothing, which is when the text has no credential '='.
   */
  lemma IdempotentIffClean(s: Str)
    ensures Sanitized(s) == s <==> Clean(s)
    ensures Sanitized(Sanitized(s)) == Sanitized(s) <==> Clean(s)
  {
    hide IsCredential, CredentialEqualsAt, Masked, Scan;
    NoMaskIsClean(s, 0);
    assert s[0..] == s;
    Remask(s, MASK_LENGTH, MASK_LENGTH);
    MaskedLength(s, MASK_LENGTH);
    MaskedLength(s, MASK_LENGTH + MASK_LENGTH);
    if Clean(s) {
      ScanIsMasked(s, 0, MASK_LENGTH);
      ScanCopies(s, 0, |s|, MASK_LENGTH);
      ScanEnd(s, MASK_LENGTH);
    }
  }

  /** A text whose second sanitizing differs from the first. */
  lemma NotIdempotent()
    ensures var s: Str := CREDENTIAL_FIELDS[1] + [EQUALS];
            Sanitized(Sanitized(s)) != Sanitized(s)
  {
    hide HasFoldSuffix, Masked;
    var f := CREDENTIAL_FIELDS[1];
    var s: Str := f + [EQUALS];
    FieldsAreNames();
    CaseIsIgnored([], f, f);
    assert [] + f == f && s[..4] == f;
    assert IsCredential(f);
    assert CredentialEqualsAt(s, 4);
    IdempotentIffClean(s);
  }
}
