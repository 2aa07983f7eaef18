/**
 * The record store: the list of client records kept under one storage key,
 * looked up, upserted and filtered by id. The browser's storage and the JSON
 * encoding are abstracted into the `clients` field of a store object.
 */
module Storage {
  import opened Wrappers
  import opened Types
  import opened Generators

  // ---------------------------------------------------------------------------
  // Specification functions over the stored list
  // ---------------------------------------------------------------------------

  /** The position of the first record with the given id, or -1 when there is none (`findIndex`). */
  function FindIndex(s: seq<Client>, id: string): (r: int)
    ensures -1 <= r < |s|
    ensures r >= 0 ==> s[r].id == id && forall k :: 0 <= k < r ==> s[k].id != id
    ensures r < 0 <==> forall k :: 0 <= k < |s| ==> s[k].id != id
  {
    if |s| == 0 then -1
    else if s[0].id == id then 0
    else
      var t := FindIndex(s[1..], id);
      if t < 0 then -1 else t + 1
  }

  /** The record a lookup by id returns: the first with that id, or none (`find(...) || null`). */
  function Lookup(s: seq<Client>, id: string): (r: Option<Client>)
    ensures r.Some? ==> r.value in s && r.value.id == id
    ensures r.None? <==> forall k :: 0 <= k < |s| ==> s[k].id != id
  {
    var i := FindIndex(s, id);
    if i >= 0 then Some(s[i]) else None
  }

  /** The list after saving a record: the first record with its id is replaced by it, re-stamped
      with the save time; a record with a new id is appended unchanged. */
  function Upsert(s: seq<Client>, c: Client, now: Timestamp): (r: seq<Client>)
    ensures FindIndex(s, c.id) >= 0 ==>
      (|r| == |s| && r[FindIndex(s, c.id)] == c.(updatedAt := now) &&
       forall k :: 0 <= k < |s| && k != FindIndex(s, c.id) ==> r[k] == s[k])
    ensures FindIndex(s, c.id) < 0 ==> r == s + [c]
  {
    var i := FindIndex(s, c.id);
    if i >= 0 then s[i := c.(updatedAt := now)] else s + [c]
  }

  /** The list without any record of the given id, the others in their order (`filter`). */
  function Without(s: seq<Client>, id: string): (r: seq<Client>)
    ensures |r| <= |s|
    ensures forall k :: 0 <= k < |r| ==> r[k].id != id && r[k] in s
    ensures forall k :: 0 <= k < |s| && s[k].id != id ==> s[k] in r
  {
    if |s| == 0 then []
    else if s[0].id == id then Without(s[1..], id)
    else [s[0]] + Without(s[1..], id)
  }

  /** A record after a status update: the new status and update time, and, for approval, the
      approval time stamped into the production details. */
  function WithStatus(c: Client, status: ClientStatus, now: Timestamp): (r: Client)
    ensures r.status == status && r.updatedAt == now
    ensures status == Approved ==> r.productionDetails == c.productionDetails.(approvedAt := Some(now))
    ensures status != Approved ==> r.productionDetails == c.productionDetails
    ensures r == c.(status := r.status, updatedAt := r.updatedAt, productionDetails := r.productionDetails)
  {
    var stamped := c.(status := status, updatedAt := now);
    if status == Approved then stamped.(productionDetails := c.productionDetails.(approvedAt := Some(now)))
    else stamped
  }

  /** No two records share an id. */
  predicate UniqueIds(s: seq<Client>) {
    forall j, k :: 0 <= j < k < |s| ==> s[j].id != s[k].id
  }

  // ---------------------------------------------------------------------------
  // The store
  // ---------------------------------------------------------------------------

  class ClientStore {
    /** The stored records, in storage order. */
    var clients: seq<Client>

    /** A store holding the list read from storage (empty when nothing is stored). */
    constructor (stored: seq<Client>)
      ensures clients == stored
    {
      clients := stored;
    }

    /** Scans the records for the first with the given id. */
    method IndexOf(id: string) returns (i: int)
      ensures i == FindIndex(clients, id)
    {
      var k := 0;
      while k < |clients|
        invariant 0 <= k <= |clients|
        invariant forall j :: 0 <= j < k ==> clients[j].id != id
      {
        if clients[k].id == id {
          FindIndexIsFirst(clients, id, k);
          return k;
        }
        k := k + 1;
      }
      return -1;
    }

    /** The first record with the given id, or none when no record has it. */
    method GetClient(id: string) returns (r: Option<Client>)
      ensures r.Some? ==> r.value in clients && r.value.id == id
      ensures r.Some? ==> r.value == clients[FindIndex(clients, id)]
      ensures r.None? <==> forall k :: 0 <= k < |clients| ==> clients[k].id != id
      ensures r == Lookup(clients, id)
    {
      var i := IndexOf(id);
      if i >= 0 {
        r := Some(clients[i]);
      } else {
        r := None;
      }
    }

    /** Saves a record: replaces the stored record with its id, re-stamped, or appends it. */
    method SaveClient(client: Client, now: Timestamp)
      modifies this
      ensures clients == Upsert(old(clients), client, now)
    {
      var i := IndexOf(client.id);
      if i >= 0 {
        clients := clients[i := client.(updatedAt := now)];
      } else {
        clients := clients + [client];
      }
    }

    /** Removes every record with the given id. */
    method DeleteClient(id: string)
      modifies this
      ensures clients == Without(old(clients), id)
    {
      var stored := clients;
      var kept: seq<Client> := [];
      var k := 0;
      while k < |stored|
        invariant 0 <= k <= |stored|
        invariant kept + Without(stored[k..], id) == Without(stored, id)
      {
        WithoutStep(stored, id, k);
        if stored[k].id != id {
          assert (kept + [stored[k]]) + Without(stored[k + 1..], id) == kept + Without(stored[k..], id);
          kept := kept + [stored[k]];
        }
        k := k + 1;
      }
      assert stored[k..] == [];
      assert kept == kept + Without(stored[k..], id);
      clients := kept;
    }

    /** Sets the status of the record with the given id and saves it; none, and no change, when no
        record has that id. */
    method UpdateClientStatus(id: string, status: ClientStatus, now: Timestamp) returns (r: Option<Client>)
      modifies this
      ensures old(Lookup(clients, id)).None? ==> r.None? && clients == old(clients)
      ensures old(Lookup(clients, id)).Some? ==>
        r == Some(WithStatus(old(Lookup(clients, id)).value, status, now)) &&
        clients == old(clients)[FindIndex(old(clients), id) := r.value]
    {
      var found := GetClient(id);
      if found.None? {
        return None;
      }
      var client := WithStatus(found.value, status, now);
      SaveClient(client, now);
      return Some(client);
    }
  }

  // ---------------------------------------------------------------------------
  // Properties
  // ---------------------------------------------------------------------------

  /** A record with the id at position k, preceded by none, is the one `FindIndex` finds. */
  lemma FindIndexIsFirst(s: seq<Client>, id: string, k: nat)
    requires k < |s| && s[k].id == id
    requires forall j :: 0 <= j < k ==> s[j].id != id
    ensures FindIndex(s, id) == k
  {
  }

  /** A saved record is what a lookup of its id then returns, re-stamped when it replaced one. */
  lemma SaveThenLookup(s: seq<Client>, c: Client, now: Timestamp)
    ensures Lookup(Upsert(s, c, now), c.id) == Some(if FindIndex(s, c.id) >= 0 then c.(updatedAt := now) else c)
  {
    var i := FindIndex(s, c.id);
    var r := Upsert(s, c, now);
    if i >= 0 {
      FindIndexIsFirst(r, c.id, i);
    } else {
      FindIndexIsFirst(r, c.id, |s|);
    }
  }

  /** Saving keeps the records of every other id where they were. */
  lemma SaveKeepsOthers(s: seq<Client>, c: Client, now: Timestamp, k: nat)
    requires k < |s| && s[k].id != c.id
    ensures k < |Upsert(s, c, now)| && Upsert(s, c, now)[k] == s[k]
  {
  }

  /** Saving keeps the ids unique. */
  lemma SaveKeepsIdsUnique(s: seq<Client>, c: Client, now: Timestamp)
    requires UniqueIds(s)
    ensures UniqueIds(Upsert(s, c, now))
  {
  }

  /** After a deletion no record of that id is found. */
  lemma DeleteThenLookup(s: seq<Client>, id: string)
    ensures Lookup(Without(s, id), id) == None
  {
  }

  /** A deletion does not change what a lookup of another id returns. */
  lemma DeleteKeepsOtherLookup(s: seq<Client>, id: string, other: string)
    requires other != id
    ensures Lookup(Without(s, id), other) == Lookup(s, other)
  {
    var r := Without(s, id);
    var i := FindIndex(s, other);
    if i >= 0 {
      WithoutPrefix(s, id, i);
      var p := Without(s[..i], id);
      assert s[i..][1..] == s[i + 1..];
      assert r == p + ([s[i]] + Without(s[i + 1..], id));
      WithoutKeepsAbsence(s[..i], id, other);
      FindIndexIsFirst(r, other, |p|);
    } else {
      WithoutKeepsAbsence(s, id, other);
    }
  }

  /** Deleting adds no id: an id absent from the list is absent after the deletion. */
  lemma WithoutKeepsAbsence(s: seq<Client>, id: string, other: string)
    requires forall k :: 0 <= k < |s| ==> s[k].id != other
    ensures forall k :: 0 <= k < |Without(s, id)| ==> Without(s, id)[k].id != other
  {
    var r := Without(s, id);
    forall k | 0 <= k < |r|
      ensures r[k].id != other
    {
      assert r[k] in s;
    }
  }

  /** Deleting changes the list exactly when a record of that id is stored. */
  lemma DeleteChangesIffPresent(s: seq<Client>, id: string)
    ensures Without(s, id) == s <==> FindIndex(s, id) < 0
  {
    if FindIndex(s, id) < 0 {
      WithoutAbsent(s, id);
    }
  }

  /** Deleting twice is deleting once. */
  lemma DeleteIdempotent(s: seq<Client>, id: string)
    ensures Without(Without(s, id), id) == Without(s, id)
  {
    WithoutAbsent(Without(s, id), id);
  }

  /** A list with no record of the id is left as it is. */
  lemma {:induction false} WithoutAbsent(s: seq<Client>, id: string)
    requires forall k :: 0 <= k < |s| ==> s[k].id != id
    ensures Without(s, id) == s
  {
    if |s| > 0 {
      WithoutAbsent(s[1..], id);
    }
  }

  /** One step of a deletion: the first record is dropped when it has the id and kept otherwise. */
  lemma WithoutStep(s: seq<Client>, id: string, k: nat)
    requires k < |s|
    ensures Without(s[k..], id) == (if s[k].id == id then [] else [s[k]]) + Without(s[k + 1..], id)
  {
    assert s[k..][1..] == s[k + 1..];
  }

  /** Deleting from a concatenation deletes from each part, so the kept records keep their order. */
  lemma {:induction false} WithoutAppend(a: seq<Client>, b: seq<Client>, id: string)
    ensures Without(a + b, id) == Without(a, id) + Without(b, id)
  {
    if |a| == 0 {
      assert a + b == b;
    } else {
      assert (a + b)[1..] == a[1..] + b;
      WithoutAppend(a[1..], b, id);
    }
  }

  /** Deleting from a list splits at any position into deleting from the prefix and from the rest. */
  lemma WithoutPrefix(s: seq<Client>, id: string, i: nat)
    requires i <= |s|
    ensures Without(s, id) == Without(s[..i], id) + Without(s[i..], id)
  {
    assert s == s[..i] + s[i..];
    WithoutAppend(s[..i], s[i..], id);
  }

  /** Approving through a status update stamps the record exactly as approving it does. */
  lemma StatusApprovalIsApproval(c: Client, now: Timestamp)
    ensures WithStatus(c, Approved, now) == ApproveClient(c, now)
  {
  }

  /** A status update to production does not generate a production prompt, so it can leave a record
      in production without one. */
  lemma StatusUpdateSkipsStaging(c: Client, now: Timestamp)
    requires c.artifacts.productionSystemPrompt == None
    ensures !Staged(WithStatus(c, Production, now))
  {
  }
}
