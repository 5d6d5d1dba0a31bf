/** Reversible aliases for tool names that an OpenAI-compatible service would not accept. */
module ToolNames {
  import opened Options

  const MAX_LENGTH: nat := 64
  const DIGEST_LENGTH: nat := 16
  const READABLE_LENGTH: nat := MAX_LENGTH - DIGEST_LENGTH - 1

  datatype Codec = Codec(toAlias: map<string, string>, toOriginal: map<string, string>, unchangedNames: set<string>) {
    function Encode(name: string): string {
      if name in toAlias then toAlias[name] else name
    }

    function Decode(name: string): string {
      if name in toOriginal then toOriginal[name] else name
    }
  }

  predicate IsPortableChar(c: char) {
    'A' <= c <= 'Z' || 'a' <= c <= 'z' || '0' <= c <= '9' || c == '_' || c == '-'
  }

  predicate AllPortable(name: string) {
    forall i | 0 <= i < |name| :: IsPortableChar(name[i])
  }

  predicate IsPortable(name: string) {
    1 <= |name| <= MAX_LENGTH && AllPortable(name)
  }

  // ---------------------------------------------------------------- the readable part of an alias

  predicate IsPunctuation(c: char) { c == '_' || c == '-' }

  function SkipInvalid(name: string): (rest: string)
    ensures |rest| <= |name|
  {
    if name == [] || IsPortableChar(name[0]) then name else SkipInvalid(name[1..])
  }

  /** Every run of characters that are not portable becomes one underscore. */
  function Substitute(name: string): (r: string)
    ensures AllPortable(r)
    decreases |name|
  {
    if name == [] then []
    else if IsPortableChar(name[0]) then [name[0]] + Substitute(name[1..])
    else ['_'] + Substitute(SkipInvalid(name[1..]))
  }

  function StripLeft(name: string): (r: string)
    ensures AllPortable(name) ==> AllPortable(r)
  {
    if name != [] && IsPunctuation(name[0]) then StripLeft(name[1..]) else name
  }

  function StripRight(name: string): (r: string)
    ensures r <= name
  {
    if name != [] && IsPunctuation(name[|name| - 1]) then StripRight(name[..|name| - 1]) else name
  }

  function OrTool(name: string): (r: string)
    ensures r != [] && (AllPortable(name) ==> AllPortable(r))
  {
    if name == [] then "tool" else name
  }

  function Shorten(name: string): (r: string)
    ensures r <= name && |r| <= READABLE_LENGTH
  {
    if |name| > READABLE_LENGTH then name[..READABLE_LENGTH] else name
  }

  function Readable(name: string): (r: string)
    ensures 1 <= |r| <= READABLE_LENGTH && AllPortable(r)
  {
    var whole := OrTool(StripRight(StripLeft(Substitute(name))));
    OrTool(StripRight(Shorten(whole)))
  }

  // ---------------------------------------------------------------- aliases

  function Decimal(n: nat): string {
    if n < 10 then [('0' as int + n) as char] else Decimal(n / 10) + [('0' as int + n % 10) as char]
  }

  function DigestInput(name: string, attempt: nat): string {
    if attempt == 0 then name else name + ['\0'] + Decimal(attempt)
  }

  /** The hash is only known to give sixteen hexadecimal characters. */
  predicate IsHexChar(c: char) { '0' <= c <= '9' || 'a' <= c <= 'f' }

  ghost predicate IsDigest(hash: string -> string) {
    forall s :: |hash(s)| == DIGEST_LENGTH && forall i | 0 <= i < DIGEST_LENGTH :: IsHexChar(hash(s)[i])
  }

  function Alias(hash: string -> string, name: string, attempt: nat): string {
    Readable(name) + ['_'] + hash(DigestInput(name, attempt))
  }

  lemma AliasIsPortable(hash: string -> string, name: string, attempt: nat)
    requires IsDigest(hash)
    ensures IsPortable(Alias(hash, name, attempt))
  {
    var a, n := Alias(hash, name, attempt), |Readable(name)|;
    forall i | 0 <= i < |a| ensures IsPortableChar(a[i]) {
      if i > n {
        assert a[i] == hash(DigestInput(name, attempt))[i - n - 1];
      }
    }
  }

  ghost predicate DistinctDigests(hash: string -> string, name: string, n: nat) {
    forall i, j | 0 <= i < j <= n :: hash(DigestInput(name, i)) != hash(DigestInput(name, j))
  }

  ghost function FirstAliases(hash: string -> string, name: string, n: nat): set<string> {
    set i | 0 <= i < n :: Alias(hash, name, i)
  }

  lemma AliasesDiffer(hash: string -> string, name: string, i: nat, j: nat)
    requires hash(DigestInput(name, i)) != hash(DigestInput(name, j))
    ensures Alias(hash, name, i) != Alias(hash, name, j)
  {
    var n := |Readable(name)| + 1;
    assert Alias(hash, name, i)[n..] == hash(DigestInput(name, i));
    assert Alias(hash, name, j)[n..] == hash(DigestInput(name, j));
  }

  lemma {:induction false} DistinctAliases(hash: string -> string, name: string, n: nat, bound: nat)
    requires DistinctDigests(hash, name, bound) && n <= bound + 1
    ensures |FirstAliases(hash, name, n)| == n
  {
    if n > 0 {
      DistinctAliases(hash, name, n - 1, bound);
      forall i | 0 <= i < n - 1 ensures Alias(hash, name, i) != Alias(hash, name, n - 1) {
        AliasesDiffer(hash, name, i, n - 1);
      }
      assert FirstAliases(hash, name, n) == FirstAliases(hash, name, n - 1) + {Alias(hash, name, n - 1)};
    }
  }

  lemma SmallerSetMisses(big: set<string>, small: set<string>)
    requires |small| < |big|
    ensures exists s :: s in big && s !in small
  {
    if forall s | s in big :: s in small {
      assert big <= small;
      CardinalityOfSubset(big, small);
    }
  }

  lemma {:induction false} CardinalityOfSubset(xs: set<string>, ys: set<string>)
    requires xs <= ys
    ensures |xs| <= |ys|
  {
    if xs != {} {
      var x :| x in xs;
      CardinalityOfSubset(xs - {x}, ys - {x});
    }
  }

  /** Among one more alias than there are reserved names one is free. */
  lemma SomeAliasIsFree(hash: string -> string, name: string, reserved: set<string>, n: nat)
    requires DistinctDigests(hash, name, n) && |reserved| <= n
    ensures exists k :: 0 <= k <= |reserved| && Alias(hash, name, k) !in reserved
  {
    DistinctAliases(hash, name, |reserved| + 1, n);
    SmallerSetMisses(FirstAliases(hash, name, |reserved| + 1), reserved);
  }

  ghost predicate IsFirstFree(hash: string -> string, name: string, reserved: set<string>, k: nat) {
    Alias(hash, name, k) !in reserved && forall i | 0 <= i < k :: Alias(hash, name, i) in reserved
  }

  /** The first attempt whose alias is not reserved. */
  ghost function FirstFree(hash: string -> string, name: string, reserved: set<string>): (k: nat)
    requires exists k: nat :: Alias(hash, name, k) !in reserved
    ensures IsFirstFree(hash, name, reserved, k)
  {
    var k: nat :| Alias(hash, name, k) !in reserved;
    LeastFree(hash, name, reserved, k)
  }

  ghost function LeastFree(hash: string -> string, name: string, reserved: set<string>, k: nat): (least: nat)
    requires Alias(hash, name, k) !in reserved
    ensures IsFirstFree(hash, name, reserved, least)
  {
    if i: nat :| i < k && Alias(hash, name, i) !in reserved then LeastFree(hash, name, reserved, i) else k
  }

  lemma FirstFreeIs(hash: string -> string, name: string, reserved: set<string>, k: nat)
    requires IsFirstFree(hash, name, reserved, k)
    ensures FirstFree(hash, name, reserved) == k
  {
    var least := FirstFree(hash, name, reserved);
    var aliases := (Alias(hash, name, least), Alias(hash, name, k));
  }

  // ---------------------------------------------------------------- the order of names

  /** Names are sorted by code points. */
  predicate LexLe(a: string, b: string) {
    a == [] || (b != [] && (a[0] < b[0] || (a[0] == b[0] && LexLe(a[1..], b[1..]))))
  }

  lemma {:induction false} LexTotal(a: string, b: string)
    ensures LexLe(a, b) || LexLe(b, a)
    ensures LexLe(a, b) && LexLe(b, a) ==> a == b
  {
    if a != [] && b != [] && a[0] == b[0] {
      LexTotal(a[1..], b[1..]);
      assert a == [a[0]] + a[1..] && b == [b[0]] + b[1..];
    }
  }

  lemma {:induction false} LexTransitive(a: string, b: string, c: string)
    requires LexLe(a, b) && LexLe(b, c)
    ensures LexLe(a, c)
  {
    if a != [] && a[0] == b[0] == c[0] {
      LexTransitive(a[1..], b[1..], c[1..]);
    }
  }

  ghost predicate IsLeast(name: string, names: set<string>) {
    name in names && forall n | n in names :: LexLe(name, n)
  }

  lemma {:induction false} LeastExists(names: set<string>)
    requires names != {}
    ensures exists n :: IsLeast(n, names)
  {
    var x :| x in names;
    var rest := names - {x};
    LexTotal(x, x);
    if rest == {} {
      assert names == {x};
      assert IsLeast(x, names);
    } else {
      LeastExists(rest);
      var y :| IsLeast(y, rest);
      LexTotal(x, y);
      var least := if LexLe(x, y) then x else y;
      forall n | n in names ensures LexLe(least, n) {
        if n != x && least == x {
          LexTransitive(x, y, n);
        }
      }
      assert IsLeast(least, names);
    }
  }

  ghost function Least(names: set<string>): (name: string)
    requires names != {}
    ensures IsLeast(name, names)
  {
    LeastExists(names);
    var name :| IsLeast(name, names);
    name
  }

  lemma LeastIsUnique(name: string, names: set<string>)
    requires IsLeast(name, names)
    ensures name == Least(names)
  {
    LexTotal(name, Least(names));
  }

  // ---------------------------------------------------------------- the codec of a set of names

  function NonEmpty(names: seq<string>): set<string> {
    set n | n in names && n != []
  }

  function Portable(names: set<string>): set<string> {
    set n | n in names && IsPortable(n)
  }

  ghost function AddAlias(codec: Codec, name: string, alias: string): Codec {
    codec.(toAlias := codec.toAlias[name := alias], toOriginal := codec.toOriginal[alias := name])
  }

  /** Every name has enough different digests to get past `n` reserved names. */
  ghost predicate Inexhaustible(hash: string -> string, names: set<string>, n: nat) {
    IsDigest(hash) && forall name | name in names :: DistinctDigests(hash, name, n)
  }

  ghost function NextAlias(hash: string -> string, name: string, reserved: set<string>, n: nat): (alias: string)
    requires IsDigest(hash) && DistinctDigests(hash, name, n) && |reserved| <= n
    ensures alias !in reserved && IsPortable(alias)
  {
    SomeAliasIsFree(hash, name, reserved, n);
    AliasIsPortable(hash, name, FirstFree(hash, name, reserved));
    Alias(hash, name, FirstFree(hash, name, reserved))
  }

  /** Names get their aliases one after the other, the least first. */
  ghost function Assign(hash: string -> string, pending: set<string>, codec: Codec, reserved: set<string>, n: nat): Codec
    requires Inexhaustible(hash, pending, n) && |reserved| + |pending| <= n
    decreases |pending|
  {
    if pending == {} then codec
    else
      var name := Least(pending);
      var alias := NextAlias(hash, name, reserved, n);
      Assign(hash, pending - {name}, AddAlias(codec, name, alias), reserved + {alias}, n)
  }

  ghost function CodecOf(hash: string -> string, names: set<string>): Codec
    requires Inexhaustible(hash, names, |names|)
  {
    CardinalityOfSplit(names);
    Assign(hash, names - Portable(names), Codec(map[], map[], Portable(names)), Portable(names), |names|)
  }

  lemma CardinalityOfSplit(names: set<string>)
    ensures |Portable(names)| + |names - Portable(names)| == |names|
  {
    assert Portable(names) <= names;
  }

  /** The two maps are inverse to each other and the aliases are new portable names. */
  ghost predicate CodecOk(codec: Codec, reserved: set<string>, done: set<string>) {
    && codec.toAlias.Keys == done && reserved == codec.unchangedNames + codec.toOriginal.Keys
    && codec.unchangedNames !! codec.toOriginal.Keys && codec.unchangedNames !! done
    && (forall n | n in codec.toAlias :: codec.toAlias[n] in codec.toOriginal && codec.toOriginal[codec.toAlias[n]] == n)
    && (forall a | a in codec.toOriginal :: codec.toOriginal[a] in done)
    && (forall n | n in reserved :: IsPortable(n))
  }

  lemma AddAliasIsOk(codec: Codec, reserved: set<string>, done: set<string>, name: string, alias: string)
    requires CodecOk(codec, reserved, done) && name !in done && name !in codec.unchangedNames
    requires alias !in reserved && IsPortable(alias)
    ensures CodecOk(AddAlias(codec, name, alias), reserved + {alias}, done + {name})
  {
  }

  lemma MoveOne(done: set<string>, pending: set<string>, name: string)
    requires name in pending
    ensures done + {name} + (pending - {name}) == done + pending
  {
  }

  /** What is still to come, seen from a codec that is right so far. */
  ghost predicate FinishesOk(final: Codec, codec: Codec, done: set<string>) {
    final.unchangedNames == codec.unchangedNames && CodecOk(final, final.unchangedNames + final.toOriginal.Keys, done)
  }

  lemma {:induction false} AssignIsOk(hash: string -> string, pending: set<string>, codec: Codec,
                                      reserved: set<string>, n: nat, done: set<string>)
    requires Inexhaustible(hash, pending, n) && |reserved| + |pending| <= n
    requires CodecOk(codec, reserved, done) && pending !! done && pending !! codec.unchangedNames
    ensures FinishesOk(Assign(hash, pending, codec, reserved, n), codec, done + pending)
    decreases |pending|
  {
    if pending == {} {
      assert done + pending == done;
    } else {
      var name := Least(pending);
      var alias := NextAlias(hash, name, reserved, n);
      AddAliasIsOk(codec, reserved, done, name, alias);
      AssignIsOk(hash, pending - {name}, AddAlias(codec, name, alias), reserved + {alias}, n, done + {name});
      MoveOne(done, pending, name);
    }
  }

  lemma CodecOfIsOk(hash: string -> string, names: set<string>)
    requires Inexhaustible(hash, names, |names|)
    ensures var codec := CodecOf(hash, names);
            && codec.unchangedNames == Portable(names)
            && CodecOk(codec, codec.unchangedNames + codec.toOriginal.Keys, names - Portable(names))
  {
    CardinalityOfSplit(names);
    var empty, pending := Codec(map[], map[], Portable(names)), names - Portable(names);
    EmptyIsOk(names);
    AssignIsOk(hash, pending, empty, Portable(names), |names|, {});
    assert {} + pending == pending;
  }

  lemma EmptyIsOk(names: set<string>)
    ensures CodecOk(Codec(map[], map[], Portable(names)), Portable(names), {})
    ensures (names - Portable(names)) !! Portable(names)
  {
  }

  /** Every name of the set comes back from the wire, where it is a portable name of 1 to 64 characters. */
  lemma RoundTrip(hash: string -> string, names: set<string>, name: string)
    requires Inexhaustible(hash, names, |names|) && name in names
    ensures CodecOf(hash, names).Decode(CodecOf(hash, names).Encode(name)) == name
    ensures IsPortable(CodecOf(hash, names).Encode(name))
    ensures IsPortable(name) ==> CodecOf(hash, names).Encode(name) == name
  {
    CodecOfIsOk(hash, names);
  }

  /** Any other name comes back too, exactly unless it happens to be an alias. */
  lemma RoundTripIff(hash: string -> string, names: set<string>, name: string)
    requires Inexhaustible(hash, names, |names|)
    ensures CodecOf(hash, names).Decode(CodecOf(hash, names).Encode(name)) == name <==>
              name in names || name !in CodecOf(hash, names).toOriginal
  {
    CodecOfIsOk(hash, names);
    if name in names {
      RoundTrip(hash, names, name);
    }
  }

  /** No two names of the set are sent under the same wire name. */
  lemma EncodeIsInjective(hash: string -> string, names: set<string>, a: string, b: string)
    requires Inexhaustible(hash, names, |names|) && a in names && b in names
    requires CodecOf(hash, names).Encode(a) == CodecOf(hash, names).Encode(b)
    ensures a == b
  {
    RoundTrip(hash, names, a);
    RoundTrip(hash, names, b);
  }

  // ---------------------------------------------------------------- the loops

  /** Try one digest after the other; it takes at most one more try than there are reserved names. */
  method UniqueAlias(hash: string -> string, name: string, reserved: set<string>, ghost n: nat)
      returns (alias: string, ghost attempt: nat)
    requires IsDigest(hash) && DistinctDigests(hash, name, n) && |reserved| <= n
    ensures alias == NextAlias(hash, name, reserved, n)
    ensures alias == Alias(hash, name, attempt) && attempt <= |reserved|
  {
    SomeAliasIsFree(hash, name, reserved, n);
    var readable := Readable(name);
    var k := 0;
    while true
      invariant k <= |reserved| && forall i | 0 <= i < k :: Alias(hash, name, i) in reserved
      decreases |reserved| - k
    {
      alias := readable + ['_'] + hash(DigestInput(name, k));
      if alias !in reserved {
        attempt := k;
        FirstFreeIs(hash, name, reserved, k);
        return;
      }
      k := k + 1;
    }
  }

  method LeastName(names: set<string>) returns (least: string)
    requires names != {}
    ensures least == Least(names)
  {
    least :| least in names;
    var rest := names - {least};
    LexTotal(least, least);
    while rest != {}
      invariant least in names && rest <= names && LexLe(least, least)
      invariant forall n | n in names && n !in rest :: LexLe(least, n)
      decreases rest
    {
      var n :| n in rest;
      LexTotal(least, n);
      LexTotal(n, n);
      if LexLe(n, least) {
        forall m | m in names && m !in rest ensures LexLe(n, m) {
          LexTransitive(n, least, m);
        }
        least := n;
      }
      rest := rest - {n};
    }
    LeastIsUnique(least, names);
  }

  /** The codec depends on the set of non-empty names alone, not on their order or on how often they occur. */
  method FromNames(hash: string -> string, names: seq<string>) returns (codec: Codec)
    requires Inexhaustible(hash, NonEmpty(names), |NonEmpty(names)|)
    ensures codec == CodecOf(hash, NonEmpty(names))
  {
    var unique := NonEmpty(names);
    var portable := Portable(unique);
    var reserved, pending := portable, unique - portable;
    codec := Codec(map[], map[], portable);
    CardinalityOfSplit(unique);
    ghost var n := |unique|;
    while pending != {}
      invariant pending <= unique && |reserved| + |pending| <= n
      invariant CodecOf(hash, unique) == Assign(hash, pending, codec, reserved, n)
      decreases pending
    {
      var name := LeastName(pending);
      var alias, attempt := UniqueAlias(hash, name, reserved, n);
      reserved := reserved + {alias};
      codec := Codec(codec.toAlias[name := alias], codec.toOriginal[alias := name], codec.unchangedNames);
      pending := pending - {name};
    }
  }
}
