/** Object ids in the tuple store. The digest stands for the material it is computed from: sha256
    is taken to be injective. */
module Identifiers {
  import opened Text

  function LowerChar(c: char): char {
    if 'A' <= c <= 'Z' then (c as int + 32) as char else c
  }

  function Lower(s: string): string {
    seq(|s|, i requires 0 <= i < |s| => LowerChar(s[i]))
  }

  /** `value.strip().lower()` */
  function Normalize(value: string): string {
    Lower(Strip(value))
  }

  /** Folding a name twice is folding it once. */
  lemma FoldedOnce(s: string)
    ensures Normalize(Normalize(s)) == Normalize(s)
  {
    var t := Strip(s);
    var l := Lower(t);
    assert forall i :: 0 <= i < |t| ==> (IsSpace(l[i]) <==> IsSpace(t[i]));
    assert Strip(l) == l;
    assert Lower(l) == l;
  }

  /** What is left of a name without the whitespace around it stands from i up to j. */
  predicate Core(s: string, i: nat, j: nat) {
    && i <= j <= |s|
    && (forall k :: 0 <= k < |s| && !IsSpace(s[k]) ==> i <= k < j)
    && (i < j ==> !IsSpace(s[i]) && !IsSpace(s[j - 1]))
  }

  predicate SameLetter(a: char, b: char) {
    || a == b
    || ('A' <= a <= 'Z' && b as int == a as int + 32)
    || ('A' <= b <= 'Z' && a as int == b as int + 32)
  }

  lemma EveryNameHasCore(s: string) returns (i: nat, j: nat)
    ensures Core(s, i, j)
  {
    var span := StripSpan(s, 0, |s|);
    i, j := span.start, span.end;
  }

  predicate SameLetters(a: string, b: string) {
    |a| == |b| && forall k :: 0 <= k < |a| ==> SameLetter(a[k], b[k])
  }

  /** Two names fold to one exactly if they differ in letter case and outer whitespace only. */
  lemma NamesFoldAlike(v: string, i: nat, j: nat, w: string, m: nat, n: nat)
    requires Core(v, i, j) && Core(w, m, n)
    ensures Normalize(v) == Normalize(w) <==> SameLetters(v[i..j], w[m..n])
  {
    StripIsCore(v, i, j);
    StripIsCore(w, m, n);
    LowerAlike(v[i..j], w[m..n]);
  }

  lemma LowerAlike(a: string, b: string)
    ensures Lower(a) == Lower(b) <==> SameLetters(a, b)
  {
    if Lower(a) == Lower(b) {
      assert |a| == |Lower(a)| == |b|;
      forall k | 0 <= k < |a| ensures SameLetter(a[k], b[k]) { assert Lower(a)[k] == Lower(b)[k]; }
    }
  }

  lemma StripIsCore(s: string, i: nat, j: nat)
    requires Core(s, i, j)
    ensures Strip(s) == s[i..j]
  {
    var span := StripSpan(s, 0, |s|);
    if i < j { assert span.start <= i && j <= span.end; }
  }

  function Digest(connection: nat, value: string): string {
    Decimal(connection) + (":" + Normalize(value))
  }

  function ConnectionPrefix(connection: nat): string {
    "c" + Decimal(connection) + "_"
  }

  function DocumentId(connection: nat, document: nat): string {
    ConnectionPrefix(connection) + "d" + Decimal(document)
  }

  function FolderId(connection: nat, folder: string): string {
    ConnectionPrefix(connection) + "f" + Digest(connection, folder)
  }

  function UserId(connection: nat, email: string): string {
    ConnectionPrefix(connection) + "u" + Digest(connection, email)
  }

  function GroupId(connection: nat, email: string): string {
    ConnectionPrefix(connection) + "g" + Digest(connection, email)
  }

  /** The connection and the rest of an id can be told from the id. */
  lemma PrefixDetermines(c: nat, a: string, d: nat, b: string)
    requires ConnectionPrefix(c) + a == ConnectionPrefix(d) + b
    ensures c == d && a == b
  {
    var s := ConnectionPrefix(c) + a;
    assert s[1..] == Decimal(c) + ("_" + a) && s[1..] == Decimal(d) + ("_" + b);
    DecimalPrefix(c, d, "_" + a, "_" + b);
    assert ("_" + a)[1..] == a && ("_" + b)[1..] == b;
  }

  /** An id made for one connection never starts with the prefix of another. */
  lemma PrefixesKeepApart(c: nat, d: nat, rest: string)
    ensures ConnectionPrefix(c) <= ConnectionPrefix(d) + rest <==> c == d
  {
    var id := ConnectionPrefix(d) + rest;
    if ConnectionPrefix(c) <= id {
      PrefixDetermines(c, id[|ConnectionPrefix(c)|..], d, rest);
    }
  }

  lemma DocumentIdInjective(c: nat, m: nat, d: nat, n: nat)
    ensures DocumentId(c, m) == DocumentId(d, n) <==> c == d && m == n
  {
    if DocumentId(c, m) == DocumentId(d, n) {
      assert ConnectionPrefix(c) + ("d" + Decimal(m)) == DocumentId(c, m);
      assert ConnectionPrefix(d) + ("d" + Decimal(n)) == DocumentId(d, n);
      PrefixDetermines(c, "d" + Decimal(m), d, "d" + Decimal(n));
      assert ("d" + Decimal(m))[1..] == Decimal(m) && ("d" + Decimal(n))[1..] == Decimal(n);
      DecimalInjective(m, n);
    }
  }

  lemma DigestDetermines(c: nat, v: string, w: string)
    ensures Digest(c, v) == Digest(c, w) <==> Normalize(v) == Normalize(w)
  {
    if Digest(c, v) == Digest(c, w) {
      DecimalPrefix(c, c, ":" + Normalize(v), ":" + Normalize(w));
      assert (":" + Normalize(v))[1..] == Normalize(v) && (":" + Normalize(w))[1..] == Normalize(w);
    }
  }

  /** Ids of one kind coincide exactly when the connection is the same and the two names differ in
      letter case and outer whitespace only. Drive folder ids do depend on letter case. */
  lemma NamedIdsCoincide(kind: char, c: nat, v: string, d: nat, w: string)
    ensures ConnectionPrefix(c) + [kind] + Digest(c, v) == ConnectionPrefix(d) + [kind] + Digest(d, w)
       <==> c == d && Normalize(v) == Normalize(w)
  {
    DigestDetermines(c, v, w);
    assert ConnectionPrefix(c) + [kind] + Digest(c, v) == ConnectionPrefix(c) + ([kind] + Digest(c, v));
    assert ConnectionPrefix(d) + [kind] + Digest(d, w) == ConnectionPrefix(d) + ([kind] + Digest(d, w));
    if ConnectionPrefix(c) + [kind] + Digest(c, v) == ConnectionPrefix(d) + [kind] + Digest(d, w) {
      PrefixDetermines(c, [kind] + Digest(c, v), d, [kind] + Digest(d, w));
      assert ([kind] + Digest(c, v))[1..] == Digest(c, v) && ([kind] + Digest(d, w))[1..] == Digest(d, w);
    }
  }

  /** Two folders that Drive tells apart by letter case share one object id. */
  lemma FolderIdsMayCoincide(c: nat)
    ensures "1aB" != "1Ab" && FolderId(c, "1aB") == FolderId(c, "1Ab")
  {
    assert Strip("1aB") == "1aB" && Strip("1Ab") == "1Ab";
    assert Lower("1aB") == "1ab" && Lower("1Ab") == "1ab";
    NamedIdsCoincide('f', c, "1aB", c, "1Ab");
  }

  /** Ids of different kinds never coincide. */
  lemma KindsKeepApart(c: nat, j: char, a: string, d: nat, k: char, b: string)
    ensures ConnectionPrefix(c) + [j] + a == ConnectionPrefix(d) + [k] + b ==> c == d && j == k && a == b
  {
    assert ConnectionPrefix(c) + [j] + a == ConnectionPrefix(c) + ([j] + a);
    assert ConnectionPrefix(d) + [k] + b == ConnectionPrefix(d) + ([k] + b);
    if ConnectionPrefix(c) + ([j] + a) == ConnectionPrefix(d) + ([k] + b) {
      PrefixDetermines(c, [j] + a, d, [k] + b);
      assert ([j] + a)[0] == j && ([k] + b)[0] == k;
      assert ([j] + a)[1..] == a && ([k] + b)[1..] == b;
    }
  }
}
