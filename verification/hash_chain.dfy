// The two hash-chained ledgers: in memory (tenir_governance/composition/lattice.py) and as
// an append-only file shared by several writers (r4/tenir_v4_test/ledger.py). The hash is
// collision-free: it is the hashed value itself.
module HashChain {
  import opened Wrappers

  datatype Hash<P> = Genesis | Digest(previous: Hash<P>, payload: P)

  // `extra` is what an entry carries outside its hash, such as its entry id.
  datatype Entry<P, U> = Entry(previous: Hash<P>, payload: P, extra: U, chain: Hash<P>)

  function Last<P, U>(entries: seq<Entry<P, U>>): Hash<P> {
    if entries == [] then Genesis else entries[|entries| - 1].chain
  }

  predicate Linked<P(==), U>(e: Entry<P, U>, previous: Hash<P>) {
    e.previous == previous && e.chain == Digest(previous, e.payload)
  }

  predicate Verified<P(==), U>(entries: seq<Entry<P, U>>) {
    entries == [] ||
    var init := entries[..|entries| - 1];
    Verified(init) && Linked(entries[|entries| - 1], Last(init))
  }

  function Next<P, U>(entries: seq<Entry<P, U>>, payload: P, extra: U): Entry<P, U> {
    Entry(Last(entries), payload, extra, Digest(Last(entries), payload))
  }

  lemma {:induction false} PrefixVerifies<P, U>(entries: seq<Entry<P, U>>, n: nat)
    requires Verified(entries) && n <= |entries|
    ensures Verified(entries[..n])
    decreases |entries|
  {
    if n < |entries| {
      PrefixVerifies(entries[..|entries| - 1], n);
      assert entries[..|entries| - 1][..n] == entries[..n];
    } else {
      assert entries[..n] == entries;
    }
  }

  lemma NextVerifies<P, U>(entries: seq<Entry<P, U>>, payload: P, extra: U)
    requires Verified(entries)
    ensures Verified(entries + [Next(entries, payload, extra)])
    ensures Last(entries + [Next(entries, payload, extra)]) == Digest(Last(entries), payload)
  {
    assert (entries + [Next(entries, payload, extra)])[..|entries|] == entries;
  }

  // The walk both verify_chain methods make, from the first entry on.
  method Walk<P(==), U>(entries: seq<Entry<P, U>>) returns (last: Option<Hash<P>>)
    ensures last == if Verified(entries) then Some(Last(entries)) else None
  {
    var previous: Hash<P> := Genesis;
    for i := 0 to |entries|
      invariant Verified(entries[..i]) && previous == Last(entries[..i])
    {
      assert entries[..i + 1][..i] == entries[..i];
      if entries[i].previous != previous || entries[i].chain != Digest(previous, entries[i].payload) {
        if Verified(entries) { PrefixVerifies(entries, i + 1); }
        return None;
      }
      previous := entries[i].chain;
    }
    assert entries[..|entries|] == entries;
    last := Some(previous);
  }

  // ---------------------------------------------------------------- what the last hash fixes

  // The hashed fields of an entry.
  function Sealed<P, U>(e: Entry<P, U>): (Hash<P>, P, Hash<P>) { (e.previous, e.payload, e.chain) }

  predicate SameSealed<P(==), U>(a: seq<Entry<P, U>>, b: seq<Entry<P, U>>) {
    |a| == |b| && forall i :: 0 <= i < |a| ==> Sealed(a[i]) == Sealed(b[i])
  }

  lemma {:induction false} SealedVerifiesAlike<P, U>(a: seq<Entry<P, U>>, b: seq<Entry<P, U>>)
    requires SameSealed(a, b) && Verified(a)
    ensures Verified(b) && Last(b) == Last(a)
  {
    if a != [] {
      SealedVerifiesAlike(a[..|a| - 1], b[..|b| - 1]);
      assert Sealed(a[|a| - 1]) == Sealed(b[|b| - 1]);
    }
  }

  lemma {:induction false} LastHashFixesChain<P, U>(a: seq<Entry<P, U>>, b: seq<Entry<P, U>>)
    requires Verified(a) && Verified(b) && Last(a) == Last(b)
    ensures SameSealed(a, b)
  {
    if a != [] && b != [] {
      LastHashFixesChain(a[..|a| - 1], b[..|b| - 1]);
    }
  }

  // Against a verified chain, another one verifies with the same last hash exactly when it
  // has the same length and the same hashed fields everywhere. What lies outside the hash
  // is not protected.
  lemma TamperEvidence<P, U>(a: seq<Entry<P, U>>, b: seq<Entry<P, U>>)
    requires Verified(a)
    ensures Verified(b) && Last(b) == Last(a) <==> SameSealed(a, b)
  {
    if SameSealed(a, b) { SealedVerifiesAlike(a, b); }
    if Verified(b) && Last(b) == Last(a) { LastHashFixesChain(a, b); }
  }

  // Without the last hash, cutting entries off the end is the one loss verification alone
  // cannot see; a removal anywhere else is always seen.
  lemma OnlyTruncationIsSilent<P, U>(entries: seq<Entry<P, U>>, i: nat)
    requires Verified(entries) && i < |entries|
    ensures Verified(entries[..i] + entries[i + 1..]) <==> i == |entries| - 1
  {
    var cut := entries[..i] + entries[i + 1..];
    if i == |entries| - 1 {
      PrefixVerifies(entries, i);
      assert cut == entries[..i];
    } else {
      PrefixVerifies(entries, i + 2);
      PrefixVerifies(entries, i + 1);
      assert entries[..i + 2][..i + 1] == entries[..i + 1] && entries[..i + 1][..i] == entries[..i];
      assert entries[i + 1].previous == Digest(Last(entries[..i]), entries[i].payload);
      if Verified(cut) {
        PrefixVerifies(cut, i + 1);
        assert cut[..i + 1][..i] == entries[..i] && cut[i] == entries[i + 1];
        DigestIsDeeper(Last(entries[..i]), entries[i].payload);
        assert false;
      }
    }
  }

  function Depth<P>(h: Hash<P>): nat {
    match h
    case Genesis => 0
    case Digest(p, _) => 1 + Depth(p)
  }

  lemma DigestIsDeeper<P>(h: Hash<P>, payload: P)
    ensures Digest(h, payload) != h
  {
    assert Depth(Digest(h, payload)) == 1 + Depth(h);
  }

  // ---------------------------------------------------------------- the ledger in memory

  class Ledger<P(==), U> {
    var entries: seq<Entry<P, U>>
    var lastHash: Hash<P>

    ghost predicate Valid()
      reads this
    {
      Verified(entries) && lastHash == Last(entries)
    }

    constructor ()
      ensures Valid() && entries == []
    {
      entries, lastHash := [], Genesis;
    }

    method Append(payload: P, extra: U) returns (hash: Hash<P>)
      requires Valid()
      modifies this
      ensures Valid() && entries == old(entries) + [Next(old(entries), payload, extra)]
      ensures hash == lastHash == Digest(old(lastHash), payload)
    {
      NextVerifies(entries, payload, extra);
      hash := Digest(lastHash, payload);
      entries := entries + [Entry(lastHash, payload, extra, hash)];
      lastHash := hash;
    }

    method VerifyChain() returns (ok: bool)
      ensures ok <==> Verified(entries)
    {
      var last := Walk(entries);
      ok := last.Some?;
    }
  }

  // ---------------------------------------------------------------- the shared file

  class File<P(==)> {
    var lines: seq<Entry<P, ()>>

    constructor ()
      ensures lines == []
    {
      lines := [];
    }
  }

  // One of possibly many writers of a file. `lastHash` is only what this writer saw last.
  class FileLedger<P(==)> {
    const file: File<P>
    var lastHash: Hash<P>

    constructor (file: File<P>)
      requires Verified(file.lines)
      ensures this.file == file && lastHash == Last(file.lines)
    {
      this.file := file;
      new;
      var last := Walk(file.lines);
      lastHash := last.value;
    }

    // Under the writer lock: verify what is on file, then extend it. None when it raises.
    method Append(payload: P) returns (hash: Option<Hash<P>>)
      modifies this, file
      ensures old(Verified(file.lines)) ==>
        && file.lines == old(file.lines) + [Next(old(file.lines), payload, ())]
        && Verified(file.lines) && hash == Some(lastHash) && lastHash == Last(file.lines)
      ensures !old(Verified(file.lines)) ==> hash == None && file.lines == old(file.lines) && lastHash == old(lastHash)
    {
      var last := Walk(file.lines);
      if last.None? { return None; }
      NextVerifies(file.lines, payload, ());
      var next := Digest(last.value, payload);
      file.lines := file.lines + [Entry(last.value, payload, (), next)];
      lastHash := next;
      hash := Some(next);
    }
  }

  // Opening a file recovers its last hash, or raises on a broken chain.
  method OpenLedger<P(==)>(file: File<P>) returns (r: Option<FileLedger<P>>)
    ensures r.Some? <==> Verified(file.lines)
    ensures r.Some? ==> fresh(r.value) && r.value.file == file && r.value.lastHash == Last(file.lines)
  {
    var last := Walk(file.lines);
    if last.None? { return None; }
    var ledger := new FileLedger(file);
    r := Some(ledger);
  }
}
