/** The chained hash table from sockets to TLS objects, relinked in place. */
module SslTable {

  const BUCKETS: nat := 128
  const ERROR: int := -1
  const SUCCESS: int := 0

  /** A TLS object; NULL is 0. */
  type Ssl = nat

  const NULL: Ssl := 0

  class Entry {
    const fd: int
    var ssl: Ssl
    var next: Entry?

    constructor (fd: int, ssl: Ssl, next: Entry?)
      ensures this.fd == fd && this.ssl == ssl && this.next == next
    {
      this.fd, this.ssl, this.next := fd, ssl, next;
    }
  }

  /** hash_fd: the cast to an unsigned word adds a multiple of the bucket count. */
  function Hash(fd: int): (b: nat)
    ensures b < BUCKETS
  {
    fd % BUCKETS
  }

  /** The cast of a 32-bit socket to the 64-bit size_t, and its remainder. */
  lemma CastKeepsBucket(fd: int)
    requires -0x8000_0000 <= fd < 0x8000_0000
    ensures (if fd < 0 then fd + 0x1_0000_0000_0000_0000 else fd) % BUCKETS == Hash(fd)
  {
  }

  /** The chain from a bucket on, ending in NULL. */
  ghost predicate Chained(head: Entry?, chain: seq<Entry>)
    reads chain`next
  {
    && head == (if chain == [] then null else chain[0])
    && forall i {:trigger chain[i].next} | 0 <= i < |chain| :: chain[i].next == if i + 1 < |chain| then chain[i + 1] else null
  }

  /** Different sockets, all of the same bucket. */
  ghost predicate Keyed(chain: seq<Entry>, b: nat) {
    && (forall e <- chain :: Hash(e.fd) == b)
    && (forall i, j | 0 <= i < j < |chain| :: chain[i].fd != chain[j].fd)
  }

  ghost function Joined(chains: seq<seq<Entry>>): seq<Entry> {
    if chains == [] then [] else Joined(chains[..|chains| - 1]) + chains[|chains| - 1]
  }

  lemma {:induction false} JoinedHas(chains: seq<seq<Entry>>, e: Entry)
    ensures e in Joined(chains) <==> exists b :: 0 <= b < |chains| && e in chains[b]
  {
    if chains != [] {
      var n := |chains| - 1;
      JoinedHas(chains[..n], e);
      if e in Joined(chains[..n]) {
        var b :| 0 <= b < n && e in chains[..n][b];
        assert e in chains[b];
      }
      if b :| 0 <= b < n && e in chains[b] {
        assert e in chains[..n][b];
      }
    }
  }

  lemma JoinedKeyed(chains: seq<seq<Entry>>, e: Entry)
    requires forall b | 0 <= b < |chains| :: Keyed(chains[b], b)
    requires e in Joined(chains)
    ensures Hash(e.fd) < |chains|
  {
    JoinedHas(chains, e);
    var b :| 0 <= b < |chains| && e in chains[b];
    assert Keyed(chains[b], b);
  }

  /** A chain of bucket n put after entries of the buckets before it. */
  lemma LastApart(before: seq<Entry>, last: seq<Entry>, n: nat)
    requires Keyed(last, n) && forall e <- before :: Hash(e.fd) < n
    requires forall i, j | 0 <= i < j < |before| :: before[i] != before[j]
    ensures var all := before + last;
      forall i, j | 0 <= i < j < |all| :: all[i] != all[j]
  {
    var all := before + last;
    forall i, j | 0 <= i < j < |all|
      ensures all[i] != all[j]
    {
      if i < |before| && j >= |before| {
        assert before[i] in before && last[j - |before|] in last;
      }
    }
  }

  lemma {:induction false} JoinedApart(chains: seq<seq<Entry>>)
    requires forall b | 0 <= b < |chains| :: Keyed(chains[b], b)
    ensures forall i, j | 0 <= i < j < |Joined(chains)| :: Joined(chains)[i] != Joined(chains)[j]
  {
    if chains != [] {
      var n := |chains| - 1;
      JoinedApart(chains[..n]);
      LastApart(Joined(chains[..n]), chains[n], n) by {
        assert Keyed(chains[n], n);
        forall e <- Joined(chains[..n])
          ensures Hash(e.fd) < n
        {
          JoinedKeyed(chains[..n], e);
        }
      }
    }
  }

  /** Chains of different buckets have nothing in common, so an entry is in all of them together once. */
  lemma JoinedOnce(chains: seq<seq<Entry>>)
    requires forall b | 0 <= b < |chains| :: Keyed(chains[b], b)
    ensures forall e :: e in Joined(chains) <==> exists b :: 0 <= b < |chains| && e in chains[b]
    ensures forall e <- Joined(chains) :: Hash(e.fd) < |chains|
    ensures forall i, j | 0 <= i < j < |Joined(chains)| :: Joined(chains)[i] != Joined(chains)[j]
  {
    forall e
      ensures e in Joined(chains) <==> exists b :: 0 <= b < |chains| && e in chains[b]
    {
      JoinedHas(chains, e);
    }
    forall e <- Joined(chains)
      ensures Hash(e.fd) < |chains|
    {
      JoinedKeyed(chains, e);
    }
    JoinedApart(chains);
  }

  /** Every socket of the map that hashes to the bucket is in its chain. */
  ghost predicate Named(chain: seq<Entry>, content: map<int, Ssl>, b: nat) {
    forall fd | fd in content && Hash(fd) == b :: exists e :: e in chain && e.fd == fd
  }

  lemma NamedPrepended(chain: seq<Entry>, content: map<int, Ssl>, b: nat, entry: Entry, ssl: Ssl)
    requires Named(chain, content, b)
    ensures Named([entry] + chain, content[entry.fd := ssl], b)
  {
    forall fd | fd in content[entry.fd := ssl] && Hash(fd) == b
      ensures exists e :: e in [entry] + chain && e.fd == fd
    {
      if fd == entry.fd {
        assert entry in [entry] + chain;
      } else {
        var e :| e in chain && e.fd == fd;
        assert e in [entry] + chain;
      }
    }
  }

  class Table {
    var initialized: bool
    var buckets: array<Entry?>
    ghost var chains: seq<seq<Entry>>
    ghost var content: map<int, Ssl>
    ghost var entries: set<Entry>

    /** A bucket heads its chain, whose sockets are those of the map that hash to it. */
    ghost predicate BucketOk(b: nat)
      requires b < buckets.Length && b < |chains|
      reads this, buckets, chains[b]
    {
      && Chained(buckets[b], chains[b])
      && Keyed(chains[b], b)
      && (forall e <- chains[b] :: e in entries)
      && (forall e <- chains[b] :: e.fd in content && content[e.fd] == e.ssl)
      && Named(chains[b], content, b)
    }

    ghost predicate Valid()
      reads this, buckets, entries
    {
      && initialized
      && buckets.Length == |chains| == BUCKETS
      && (forall b {:trigger chains[b]} | 0 <= b < BUCKETS :: forall e <- chains[b] :: e in entries)
      && forall b {:trigger BucketOk(b)} | 0 <= b < BUCKETS :: BucketOk(b)
    }

    /** Before ssl_table_init. */
    constructor ()
      ensures !initialized
    {
      initialized := false;
      buckets := new Entry?[0](_ => null);
      chains, content, entries := [], map[], {};
    }

    /** ssl_table_init */
    method Init()
      modifies this
      ensures Valid() && content == map[] && fresh(buckets)
    {
      buckets := new Entry?[BUCKETS](_ => null);
      initialized := true;
      chains, content, entries := seq(BUCKETS, _ => []), map[], {};
    }

    /** The walk that ssl_table_add and ssl_table_get share. */
    method Find(fd: int) returns (e: Entry?)
      requires Valid()
      ensures e == null <==> fd !in content
      ensures e != null ==> e in chains[Hash(fd)] && e.fd == fd && e.ssl == content[fd]
    {
      var index := Hash(fd);
      assert BucketOk(index);
      ghost var chain := chains[index];
      ghost var i := 0;
      e := buckets[index];
      while e != null
        invariant 0 <= i <= |chain|
        invariant e == if i < |chain| then chain[i] else null
        invariant forall k | 0 <= k < i :: chain[k].fd != fd
        decreases |chain| - i
      {
        if e.fd == fd {
          return;
        }
        e := e.next;
        i := i + 1;
      }
    }

    /** ssl_table_add */
    method Add(fd: int, ssl: Ssl) returns (ret: int)
      requires initialized ==> Valid()
      modifies this, buckets, entries
      ensures initialized == old(initialized) && buckets == old(buckets)
      ensures !initialized ==> ret == ERROR
      ensures initialized ==> Valid() && ret == SUCCESS && content == old(content)[fd := ssl]
      ensures fresh(entries - old(entries))
    {
      if !initialized {
        return ERROR;
      }
      var e := Find(fd);
      if e != null {
        Overwrite(e, ssl);
        return SUCCESS;
      }
      Prepend(fd, ssl);
      ret := SUCCESS;
    }

    method Overwrite(e: Entry, ssl: Ssl)
      requires Valid() && e.fd in content && e in chains[Hash(e.fd)]
      modifies this`content, e`ssl
      ensures Valid() && content == old(content)[e.fd := ssl]
    {
      e.ssl := ssl;
      content := content[e.fd := ssl];
      forall b | 0 <= b < BUCKETS
        ensures BucketOk(b)
      {
        assert old(BucketOk(b)) && old(BucketOk(Hash(e.fd)));
      }
    }

    method Prepend(fd: int, ssl: Ssl)
      requires Valid() && fd !in content
      modifies this`chains, this`content, this`entries, buckets
      ensures Valid() && content == old(content)[fd := ssl] && fresh(entries - old(entries))
    {
      var index := Hash(fd);
      assert BucketOk(index);
      var entry := new Entry(fd, ssl, buckets[index]);
      buckets[index] := entry;
      chains := chains[index := [entry] + chains[index]];
      content := content[fd := ssl];
      entries := entries + {entry};
      assert chains[index][1..] == old(chains[index]);
      forall b | 0 <= b < BUCKETS
        ensures BucketOk(b)
      {
        assert old(BucketOk(b));
        if b == index {
          NamedPrepended(old(chains[b]), old(content), b, entry, ssl);
        }
      }
    }

    /** ssl_table_get */
    method Get(fd: int) returns (ssl: Ssl)
      requires initialized ==> Valid()
      ensures ssl == if initialized && fd in content then content[fd] else NULL
    {
      if !initialized {
        return NULL;
      }
      var e := Find(fd);
      ssl := if e == null then NULL else e.ssl;
    }

    /** ssl_table_remove */
    method Remove(fd: int)
      requires initialized ==> Valid()
      modifies this`chains, this`content, buckets, entries`next
      ensures initialized ==> Valid() && content == old(content) - {fd}
    {
      if !initialized {
        return;
      }
      var index := Hash(fd);
      assert BucketOk(index);
      ghost var chain := chains[index];
      ghost var i := 0;
      var prev: Entry? := null;
      var curr := buckets[index];
      while curr != null
        invariant 0 <= i <= |chain|
        invariant curr == if i < |chain| then chain[i] else null
        invariant prev == if i == 0 then null else chain[i - 1]
        invariant forall k | 0 <= k < i :: chain[k].fd != fd
        decreases |chain| - i
      {
        if curr.fd == fd {
          Unlink(index, i, prev, curr);
          return;
        }
        prev := curr;
        curr := curr.next;
        i := i + 1;
      }
      assert fd !in content;
      assert content - {fd} == content;
    }

    /** Relinks around the i-th entry of a chain. */
    method Relink(index: nat, ghost i: nat, prev: Entry?, curr: Entry)
      requires Valid() && index < BUCKETS && i < |chains[index]| && curr == chains[index][i]
      requires prev == if i == 0 then null else chains[index][i - 1]
      modifies buckets, entries`next
      ensures Chained(buckets[index], chains[index][..i] + chains[index][i + 1..])
      ensures forall b {:trigger chains[b]} | 0 <= b < BUCKETS && b != index :: Chained(buckets[b], chains[b])
    {
      assert BucketOk(index);
      if prev != null {
        RelinkAfter(index, i, prev, curr);
      } else {
        buckets[index] := curr.next;
        assert chains[index][..i] + chains[index][i + 1..] == chains[index][1..];
        forall b {:trigger chains[b]} | 0 <= b < BUCKETS && b != index
          ensures Chained(buckets[b], chains[b])
        {
          assert old(BucketOk(b));
        }
      }
    }

    method RelinkAfter(index: nat, ghost i: nat, prev: Entry, curr: Entry)
      requires Valid() && index < BUCKETS && 0 < i < |chains[index]| && curr == chains[index][i] && prev == chains[index][i - 1]
      modifies entries`next
      ensures Chained(buckets[index], chains[index][..i] + chains[index][i + 1..])
      ensures forall b {:trigger chains[b]} | 0 <= b < BUCKETS && b != index :: Chained(buckets[b], chains[b])
    {
      ghost var chain := chains[index];
      assert BucketOk(index) && forall k | 0 <= k < |chain| :: chain[k] in chain;
      prev.next := curr.next;
      ghost var rest := chain[..i] + chain[i + 1..];
      assert forall k | 0 <= k < |rest| :: rest[k] == chain[if k < i then k else k + 1];
      forall b {:trigger chains[b]} | 0 <= b < BUCKETS && b != index
        ensures Chained(buckets[b], chains[b])
      {
        assert old(BucketOk(b));
        forall k | 0 <= k < |chains[b]|
          ensures chains[b][k] != prev
        {
          assert chains[b][k] in chains[b];
        }
      }
    }

    /** What is left of a chain is keyed, and says the same but for the socket taken out. */
    lemma RestOfChain(index: nat, i: nat)
      requires Valid() && index < BUCKETS && i < |chains[index]|
      ensures var chain := chains[index];
        var rest := chain[..i] + chain[i + 1..];
        && Keyed(rest, index) && (forall e <- rest :: e in chain && e.fd != chain[i].fd)
        && forall fd | fd in content && fd != chain[i].fd && Hash(fd) == index :: exists e :: e in rest && e.fd == fd
    {
      var chain := chains[index];
      var rest := chain[..i] + chain[i + 1..];
      assert BucketOk(index);
      assert forall k | 0 <= k < |rest| :: rest[k] == chain[if k < i then k else k + 1];
      forall fd | fd in content && fd != chain[i].fd && Hash(fd) == index
        ensures exists e :: e in rest && e.fd == fd
      {
        var e :| e in chain && e.fd == fd;
        var k :| 0 <= k < |chain| && chain[k] == e;
        assert rest[if k < i then k else k - 1] == e;
      }
    }

    /** Takes the i-th entry of a chain out of it. */
    method Unlink(index: nat, ghost i: nat, prev: Entry?, curr: Entry)
      requires Valid() && index < BUCKETS && i < |chains[index]| && curr == chains[index][i]
      requires prev == if i == 0 then null else chains[index][i - 1]
      modifies this`chains, this`content, buckets, entries`next
      ensures Valid() && content == old(content) - {curr.fd}
    {
      RestOfChain(index, i);
      assert BucketOk(index) && Hash(curr.fd) == index;
      Relink(index, i, prev, curr);
      chains := chains[index := chains[index][..i] + chains[index][i + 1..]];
      content := content - {curr.fd};
      forall b | 0 <= b < BUCKETS
        ensures BucketOk(b)
      {
        assert old(BucketOk(b));
      }
    }

    /** ssl_table_free: every entry of every chain is released, in order; the flag stays set. */
    method Free() returns (ghost freed: seq<Entry>)
      requires initialized ==> Valid()
      modifies this
      ensures initialized == old(initialized)
      ensures freed == if initialized then Joined(old(chains)) else []
      ensures initialized ==> buckets.Length == 0
    {
      freed := [];
      if !initialized {
        return;
      }
      var i := 0;
      while i < buckets.Length
        invariant 0 <= i <= buckets.Length == |chains|
        invariant freed == Joined(chains[..i])
      {
        assert BucketOk(i);
        ghost var before := freed;
        ghost var k := 0;
        var entry := buckets[i];
        while entry != null
          invariant 0 <= k <= |chains[i]|
          invariant entry == if k < |chains[i]| then chains[i][k] else null
          invariant freed == before + chains[i][..k]
          decreases |chains[i]| - k
        {
          freed := freed + [entry];
          entry := entry.next;
          k := k + 1;
        }
        assert chains[..i + 1][..i] == chains[..i] && chains[i][..k] == chains[i];
        i := i + 1;
      }
      assert chains[..i] == chains;
      buckets := new Entry?[0](_ => null);
    }
  }
}
