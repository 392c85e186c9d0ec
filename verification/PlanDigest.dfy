/** The plan digest fingerprints the plan (internal/plan/plan.go lines 343-375): what is
    hashed determines the key, kind, size and modification time of every entry. */
module PlanDigest {
  import opened Bytes
  import opened Plan

  /** Values of the widths they are hashed in. */
  predicate Sized(e: Entry, key: seq<byte>) {
    |key| < U32 && e.size < U64 && -(U64 as int / 2) <= e.mtimeSec < U64 / 2 && e.mtimeNsec < U32
  }

  ghost predicate AllSized(es: seq<Entry>, keys: seq<seq<byte>>) {
    |es| == |keys| && forall i :: 0 <= i < |es| ==> Sized(es[i], keys[i])
  }

  predicate SameFacts(e: Entry, f: Entry) {
    e.kind == f.kind && e.size == f.size && e.mtimeSec == f.mtimeSec && e.mtimeNsec == f.mtimeNsec
  }

  lemma SplitEqual(a: seq<byte>, b: seq<byte>, c: seq<byte>, d: seq<byte>)
    requires a + b == c + d && |a| == |c|
    ensures a == c && b == d
  {
    assert a == (a + b)[..|a|] && c == (c + d)[..|c|];
    assert b == (a + b)[|a|..] && d == (c + d)[|c|..];
  }

  lemma NumberEqual(v: nat, w: nat, n: nat, b: seq<byte>, d: seq<byte>)
    requires v < Pow256(n) && w < Pow256(n) && BigEndian(v, n) + b == BigEndian(w, n) + d
    ensures v == w && b == d
  {
    SplitEqual(BigEndian(v, n), b, BigEndian(w, n), d);
    BigEndianBack(v, n);
    BigEndianBack(w, n);
  }

  lemma SignedEqual(a: int, b: int)
    requires -(U64 as int / 2) <= a < U64 / 2 && -(U64 as int / 2) <= b < U64 / 2 && a % U64 == b % U64
    ensures a == b
  {
  }

  lemma Nested(a: seq<byte>, b: seq<byte>, c: seq<byte>, d: seq<byte>, e: seq<byte>, f: seq<byte>, r: seq<byte>)
    ensures a + b + c + d + e + f + r == a + (b + (c + (d + (e + (f + r)))))
  {
    Associative(a + b + c + d + e, f, r);
    Associative(a + b + c + d, e, f + r);
    Associative(a + b + c, d, e + (f + r));
    Associative(a + b, c, d + (e + (f + r)));
    Associative(a, b, c + (d + (e + (f + r))));
  }

  /** The parts of an entry's record, nested from the front. */
  lemma EntryParts(e: Entry, key: seq<byte>, rest: seq<byte>)
    ensures DigestEntry(e, key) + rest
            == BigEndian(|key|, 4) + (key + (BigEndian(KindCode(e.kind), 1)
               + (BigEndian(e.size, 8) + (BigEndian(e.mtimeSec % U64, 8) + (BigEndian(e.mtimeNsec, 4) + rest)))))
  {
    Nested(BigEndian(|key|, 4), key, BigEndian(KindCode(e.kind), 1), BigEndian(e.size, 8),
           BigEndian(e.mtimeSec % U64, 8), BigEndian(e.mtimeNsec, 4), rest);
  }

  /** Equal records, whatever follows, are of the same entry. */
  lemma EntryEqual(e: Entry, key: seq<byte>, r: seq<byte>, f: Entry, lock: seq<byte>, t: seq<byte>)
    requires Sized(e, key) && Sized(f, lock) && DigestEntry(e, key) + r == DigestEntry(f, lock) + t
    ensures key == lock && SameFacts(e, f) && r == t
  {
    Pow256Values();
    EntryParts(e, key, r);
    EntryParts(f, lock, t);
    var e5, f5 := BigEndian(e.mtimeNsec, 4) + r, BigEndian(f.mtimeNsec, 4) + t;
    var e4, f4 := BigEndian(e.mtimeSec % U64, 8) + e5, BigEndian(f.mtimeSec % U64, 8) + f5;
    var e3, f3 := BigEndian(e.size, 8) + e4, BigEndian(f.size, 8) + f4;
    var e2, f2 := BigEndian(KindCode(e.kind), 1) + e3, BigEndian(KindCode(f.kind), 1) + f3;
    NumberEqual(|key|, |lock|, 4, key + e2, lock + f2);
    SplitEqual(key, e2, lock, f2);
    NumberEqual(KindCode(e.kind), KindCode(f.kind), 1, e3, f3);
    NumberEqual(e.size, f.size, 8, e4, f4);
    NumberEqual(e.mtimeSec % U64, f.mtimeSec % U64, 8, e5, f5);
    NumberEqual(e.mtimeNsec, f.mtimeNsec, 4, r, t);
    SignedEqual(e.mtimeSec, f.mtimeSec);
  }

  lemma {:induction false} FirstEntry(es: seq<Entry>, keys: seq<seq<byte>>)
    requires |es| == |keys| && es != []
    ensures DigestEntries(es, keys) == DigestEntry(es[0], keys[0]) + DigestEntries(es[1..], keys[1..])
    decreases |es|
  {
    var n := |es| - 1;
    if n > 0 {
      FirstEntry(es[..n], keys[..n]);
      assert es[..n][1..] == es[1..][..n - 1] && keys[..n][1..] == keys[1..][..n - 1];
      Associative(DigestEntry(es[0], keys[0]), DigestEntries(es[1..][..n - 1], keys[1..][..n - 1]), DigestEntry(es[n], keys[n]));
    } else {
      assert DigestEntries(es[..0], keys[..0]) == [] && DigestEntries(es[1..], keys[1..]) == [];
    }
  }

  lemma NonEmpty(es: seq<Entry>, keys: seq<seq<byte>>)
    requires |es| == |keys|
    ensures DigestEntries(es, keys) == [] <==> es == []
  {
  }

  lemma RestSized(es: seq<Entry>, keys: seq<seq<byte>>)
    requires AllSized(es, keys) && es != []
    ensures Sized(es[0], keys[0]) && AllSized(es[1..], keys[1..])
  {
  }

  lemma Cons(es: seq<Entry>, keys: seq<seq<byte>>, fs: seq<Entry>, locks: seq<seq<byte>>)
    requires |es| == |keys| && |fs| == |locks| && es != [] && fs != []
    requires keys[0] == locks[0] && SameFacts(es[0], fs[0]) && keys[1..] == locks[1..] && |es[1..]| == |fs[1..]|
    requires forall i :: 0 <= i < |es[1..]| ==> SameFacts(es[1..][i], fs[1..][i])
    ensures keys == locks && |es| == |fs| && forall i :: 0 <= i < |es| ==> SameFacts(es[i], fs[i])
  {
    assert keys == [keys[0]] + keys[1..] && locks == [locks[0]] + locks[1..];
    forall i | 0 <= i < |es|
      ensures SameFacts(es[i], fs[i])
    {
      assert i > 0 ==> es[1..][i - 1] == es[i] && fs[1..][i - 1] == fs[i];
    }
  }

  lemma {:induction false} EntriesEqual(es: seq<Entry>, keys: seq<seq<byte>>, fs: seq<Entry>, locks: seq<seq<byte>>)
    requires AllSized(es, keys) && AllSized(fs, locks) && DigestEntries(es, keys) == DigestEntries(fs, locks)
    ensures keys == locks && |es| == |fs| && forall i :: 0 <= i < |es| ==> SameFacts(es[i], fs[i])
    decreases |es|
  {
    NonEmpty(es, keys);
    NonEmpty(fs, locks);
    if es != [] {
      FirstEntry(es, keys);
      FirstEntry(fs, locks);
      RestSized(es, keys);
      RestSized(fs, locks);
      EntryEqual(es[0], keys[0], DigestEntries(es[1..], keys[1..]), fs[0], locks[0], DigestEntries(fs[1..], locks[1..]));
      EntriesEqual(es[1..], keys[1..], fs[1..], locks[1..]);
      Cons(es, keys, fs, locks);
    }
  }

  /** Under the same options, two plans have the same bytes hashed exactly when their
      entries agree, in order, in key, kind, size and modification time. */
  lemma SameInputIff(opts: Options, es: seq<Entry>, keys: seq<seq<byte>>, fs: seq<Entry>, locks: seq<seq<byte>>)
    requires AllSized(es, keys) && AllSized(fs, locks)
    ensures DigestInput(opts, es, keys) == DigestInput(opts, fs, locks)
            <==> keys == locks && |es| == |fs| && forall i :: 0 <= i < |es| ==> SameFacts(es[i], fs[i])
  {
    var head := DIGEST_PREAMBLE + opts.signature + Ascii("sys-v1");
    if DigestInput(opts, es, keys) == DigestInput(opts, fs, locks) {
      SplitEqual(head, DigestEntries(es, keys), head, DigestEntries(fs, locks));
      EntriesEqual(es, keys, fs, locks);
    } else if keys == locks && |es| == |fs| && forall i :: 0 <= i < |es| ==> SameFacts(es[i], fs[i]) {
      SameEntries(es, fs, keys);
      assert false;
    }
  }

  lemma {:induction false} SameEntries(es: seq<Entry>, fs: seq<Entry>, keys: seq<seq<byte>>)
    requires |es| == |fs| == |keys| && forall i :: 0 <= i < |es| ==> SameFacts(es[i], fs[i])
    ensures DigestEntries(es, keys) == DigestEntries(fs, keys)
  {
    if es != [] {
      SameEntries(es[..|es| - 1], fs[..|es| - 1], keys[..|es| - 1]);
    }
  }
}
