/** The in-memory results store: one flat map for saved results and for job, group and chain messages,
    told apart by prefixes of their keys only, and the two index sets. */
module MemoryResults {
  import opened Jobs

  type Bytes = string

  /** A plain ID is the key of what a handler saved. */
  datatype Kind = Saved | JobMsg | GroupMsg | ChainMsg

  function Prefix(k: Kind): string {
    match k
    case Saved => ""
    case JobMsg => "job:msg:"
    case GroupMsg => "group:msg:"
    case ChainMsg => "chain:msg:"
  }

  function Key(k: Kind, id: string): (key: string)
    ensures k == Saved ==> key == id
    ensures k == JobMsg ==> key == "job:msg:" + id
    ensures k == GroupMsg ==> key == "group:msg:" + id
    ensures k == ChainMsg ==> key == "chain:msg:" + id
  {
    Prefix(k) + id
  }

  /** IDs that look like the key of a message. */
  predicate LooksLikeKey(id: string) {
    "job:msg:" <= id || "group:msg:" <= id || "chain:msg:" <= id
  }

  lemma KeyDetermines(k: Kind, i: string, l: Kind, j: string)
    requires Key(k, i) == Key(l, j)
    ensures k == l || k == Saved || l == Saved
    ensures k == l ==> i == j
  {
    assert Key(k, i)[|Prefix(k)|..] == i && Key(l, j)[|Prefix(l)|..] == j;
    assert k != Saved ==> Key(k, i)[0] == Prefix(k)[0];
    assert l != Saved ==> Key(l, j)[0] == Prefix(l)[0];
  }

  /** Where a handler's result would land on a message: exactly for such IDs. */
  lemma ResultHitsMessage(id: string)
    ensures LooksLikeKey(id) <==> exists k: Kind, i: string :: k != Saved && Key(Saved, id) == Key(k, i)
  {
    if LooksLikeKey(id) {
      var k := if "job:msg:" <= id then JobMsg else if "group:msg:" <= id then GroupMsg else ChainMsg;
      assert Key(k, id[|Prefix(k)|..]) == id;
    }
    forall k: Kind, i: string | k != Saved && Key(Saved, id) == Key(k, i)
      ensures Prefix(k) <= id
    {
    }
  }

  function Read(store: map<string, Bytes>, k: Kind, id: string): Option<Bytes> {
    if Key(k, id) in store then Some(store[Key(k, id)]) else None
  }

  /** So for such IDs the flat map is four separate maps, one for each kind. */
  lemma WritesAreSeparate(store: map<string, Bytes>, k: Kind, i: string, b: Bytes, l: Kind, j: string)
    requires !LooksLikeKey(i) && !LooksLikeKey(j)
    ensures Read(store[Key(k, i) := b], l, j) == if k == l && i == j then Some(b) else Read(store, l, j)
  {
    if Key(k, i) == Key(l, j) {
      KeyDetermines(k, i, l, j);
      ResultHitsMessage(i);
      ResultHitsMessage(j);
    }
  }

  /** And for an ID that does look like a key they are not: saving a result under it overwrites a message. */
  lemma SavingOverwrites(store: map<string, Bytes>, id: string, b: Bytes) returns (k: Kind, j: string)
    requires LooksLikeKey(id)
    ensures k != Saved && Read(store[Key(Saved, id) := b], k, j) == Some(b)
  {
    ResultHitsMessage(id);
    k, j :| k != Saved && Key(Saved, id) == Key(k, j);
    assert Key(Saved, id) == id;
  }

  class Results {
    var store: map<string, Bytes>
    var success: set<string>
    var failed: set<string>

    constructor ()
      ensures store == map[] && success == {} && failed == {}
    {
      store, success, failed := map[], {}, {};
    }

    method Get(key: string) returns (r: Option<Bytes>)
      ensures r == if key in store then Some(store[key]) else None
    {
      if key !in store { return None; }
      return Some(store[key]);
    }

    method Set(key: string, b: Bytes)
      modifies this`store
      ensures store == old(store)[key := b]
    {
      store := store[key := b];
    }

    method SetSuccess(id: string)
      modifies this`success
      ensures success == old(success) + {id}
    {
      success := success + {id};
    }

    method SetFailed(id: string)
      modifies this`failed
      ensures failed == old(failed) + {id}
    {
      failed := failed + {id};
    }

    /** Removes the saved result and both index entries. The job's message stays, and all other keys. */
    method DeleteJob(id: string)
      modifies this
      ensures Read(store, Saved, id) == None && id !in success && id !in failed
      ensures Read(store, JobMsg, id) == Read(old(store), JobMsg, id)
      ensures forall k | k != id :: k in store <==> k in old(store)
      ensures forall k | k in store :: k in old(store) && store[k] == old(store)[k]
      ensures success == old(success) - {id} && failed == old(failed) - {id}
    {
      assert Key(Saved, id) == id && |Key(JobMsg, id)| == 8 + |id|;
      store := store - {id};
      failed := failed - {id};
      success := success - {id};
    }

    /** As many empty strings as there are IDs, then the IDs, each once, in no promised order. */
    method GetSuccess() returns (ids: seq<string>)
      ensures Listing(ids, success)
    {
      ids := ListAll(success);
    }

    method GetFailed() returns (ids: seq<string>)
      ensures Listing(ids, failed)
    {
      ids := ListAll(failed);
    }
  }

  ghost predicate Listing(ids: seq<string>, s: set<string>) {
    && |ids| == 2 * |s|
    && (forall i | 0 <= i < |s| :: ids[i] == "")
    && (forall i, j | |s| <= i < j < |ids| :: ids[i] != ids[j])
    && (forall x :: x in ids[|s|..] <==> x in s)
  }

  method ListAll(s: set<string>) returns (ids: seq<string>)
    ensures Listing(ids, s)
  {
    ids := seq(|s|, _ => "");
    var rest := s;
    while rest != {}
      invariant rest <= s && |s| <= |ids| == 2 * |s| - |rest|
      invariant forall i | 0 <= i < |s| :: ids[i] == ""
      invariant forall i, j | |s| <= i < j < |ids| :: ids[i] != ids[j]
      invariant forall x :: x in ids[|s|..] <==> x in s && x !in rest
      decreases rest
    {
      var k :| k in rest;
      assert (ids + [k])[|s|..] == ids[|s|..] + [k];
      forall i | |s| <= i < |ids| ensures ids[i] != k {
        assert ids[|s|..][i - |s|] == ids[i];
      }
      ids := ids + [k];
      rest := rest - {k};
    }
  }

  /** What the listing is for: the IDs in it, other than the padding. */
  lemma ListingMeansSet(ids: seq<string>, s: set<string>, id: string)
    requires Listing(ids, s) && id != ""
    ensures id in ids <==> id in s
  {
    if id in ids {
      var i :| 0 <= i < |ids| && ids[i] == id;
      assert ids[|s|..][i - |s|] == id;
    }
    if id in s {
      assert id in ids[|s|..];
    }
  }
}
