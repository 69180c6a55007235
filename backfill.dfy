/** The one-off miles backfill (backfill_miles.py): every session with no
    miles, whose client has positive default miles, is given those miles. A
    dry run counts the sessions it would change and changes none. */
module Backfill {
  import opened Wrappers
  import opened Seqs
  import opened Domain

  function DefaultMiles(c: Client): int { c.defaultMiles.GetOr(0) }

  /** `{c["id"]: c.get("default_miles", 0) for c in clients}`: one key per
      client id; when ids repeat, the later client's miles are kept. */
  function ClientMiles(clients: seq<Client>): (m: map<string, int>)
    ensures m.Keys == set i | 0 <= i < |clients| :: clients[i].id
    ensures forall i :: 0 <= i < |clients| && (forall j :: i < j < |clients| ==> clients[j].id != clients[i].id)
              ==> m[clients[i].id] == DefaultMiles(clients[i])
  {
    IndexBy(clients, ClientId, DefaultMiles)
  }

  /** Two clients with one id: the later one's default miles are used. */
  lemma ClientMilesLaterWins()
    ensures ClientMiles([Client("c", "A", "", Some(5)), Client("c", "B", "", Some(8))]) == map["c" := 8]
  {
    var cs := [Client("c", "A", "", Some(5)), Client("c", "B", "", Some(8))];
    var m := ClientMiles(cs);
    assert m.Keys == {"c"} by {
      assert cs[0].id == "c" && cs[1].id == "c";
    }
    assert m[cs[1].id] == 8;
  }

  /** `client_miles.get(entry.get("client_id"), 0)`. */
  function DefaultFor(miles: map<string, int>, e: Entry): int {
    if e.clientId.Some? && e.clientId.value in miles then miles[e.clientId.value] else 0
  }

  /** `current == 0 and default > 0`, with absent miles counting as 0. */
  predicate Needs(miles: map<string, int>, e: Entry) {
    e.miles.GetOr(0) == 0 && DefaultFor(miles, e) > 0
  }

  /** The session as the apply run leaves it: given its client's default
      miles when it needs them, otherwise untouched. */
  function Backfilled(miles: map<string, int>, e: Entry): (r: Entry)
    ensures Needs(miles, e) ==> r == e.(miles := Some(DefaultFor(miles, e)))
    ensures !Needs(miles, e) ==> r == e
  {
    if Needs(miles, e) then e.(miles := Some(DefaultFor(miles, e))) else e
  }

  /** A session that already has miles is never changed, nor is one whose
      client is unknown or has no positive default. */
  lemma BackfillUntouched(miles: map<string, int>, e: Entry)
    requires e.miles.GetOr(0) != 0 || e.clientId.None? || e.clientId.value !in miles || miles[e.clientId.value] <= 0
    ensures Backfilled(miles, e) == e
  {
  }

  /** The backfill changes the miles of a session and nothing else. */
  lemma BackfillOnlyMiles(miles: map<string, int>, e: Entry)
    ensures Backfilled(miles, e).(miles := e.miles) == e
  {
  }

  /** A backfilled session needs nothing more. */
  lemma BackfilledDone(miles: map<string, int>, e: Entry)
    ensures !Needs(miles, Backfilled(miles, e))
  {
  }

  function BackfillAll(miles: map<string, int>, entries: seq<Entry>): (r: seq<Entry>)
    ensures |r| == |entries|
    ensures forall i :: 0 <= i < |entries| ==> r[i] == Backfilled(miles, entries[i])
  {
    seq(|entries|, i requires 0 <= i < |entries| => Backfilled(miles, entries[i]))
  }

  /** The positions of the sessions that need miles. */
  function NeedingAt(miles: map<string, int>, entries: seq<Entry>): set<int> {
    set i | 0 <= i < |entries| && Needs(miles, entries[i])
  }

  /** The needing positions of a longer list: those of its front, and the
      last position when that session needs miles. */
  lemma NeedingAtSnoc(miles: map<string, int>, entries: seq<Entry>)
    requires entries != []
    ensures var last := |entries| - 1;
      NeedingAt(miles, entries) == NeedingAt(miles, entries[..last]) + (if Needs(miles, entries[last]) then {last} else {})
  {
    var last := |entries| - 1;
    var init := entries[..last];
    var extra: set<int> := if Needs(miles, entries[last]) then {last} else {};
    forall i | i in NeedingAt(miles, entries) ensures i in NeedingAt(miles, init) + extra {
      if i < last {
        assert init[i] == entries[i];
      }
    }
    forall i | i in NeedingAt(miles, init) + extra ensures i in NeedingAt(miles, entries) {
      if i < last {
        assert init[i] == entries[i];
      }
    }
  }

  /** The number of sessions the run changes: the number of positions whose
      session needs miles. */
  function CountNeeding(miles: map<string, int>, entries: seq<Entry>): (n: int)
    ensures n == |NeedingAt(miles, entries)| && 0 <= n <= |entries|
    decreases |entries|
  {
    if entries == [] then
      assert NeedingAt(miles, entries) == {};
      0
    else
      var last := |entries| - 1;
      var rest := CountNeeding(miles, entries[..last]);
      NeedingAtSnoc(miles, entries);
      assert last !in NeedingAt(miles, entries[..last]);
      rest + (if Needs(miles, entries[last]) then 1 else 0)
  }

  /** The count is zero exactly when no session needs miles. */
  lemma {:induction false} CountZero(miles: map<string, int>, entries: seq<Entry>)
    ensures CountNeeding(miles, entries) == 0 <==> forall i :: 0 <= i < |entries| ==> !Needs(miles, entries[i])
    decreases |entries|
  {
    if entries != [] {
      var init := entries[..|entries| - 1];
      CountZero(miles, init);
      assert forall i :: 0 <= i < |init| ==> init[i] == entries[i];
    }
  }

  /** After an apply run a second run changes nothing. */
  lemma BackfillIdempotent(miles: map<string, int>, entries: seq<Entry>)
    ensures CountNeeding(miles, BackfillAll(miles, entries)) == 0
    ensures BackfillAll(miles, BackfillAll(miles, entries)) == BackfillAll(miles, entries)
  {
    var once := BackfillAll(miles, entries);
    forall i | 0 <= i < |once| ensures !Needs(miles, once[i]) {
      BackfilledDone(miles, entries[i]);
    }
    CountZero(miles, once);
  }

  /** Each backfilled session received exactly its client's default. */
  lemma BackfillSets(miles: map<string, int>, entries: seq<Entry>, i: int)
    requires 0 <= i < |entries| && Needs(miles, entries[i])
    ensures BackfillAll(miles, entries)[i].miles == Some(miles[entries[i].clientId.value])
    ensures miles[entries[i].clientId.value] > 0
  {
  }

  /** The loop of `main` over a precomputed miles table: each session that
      needs miles is changed when `apply` is set, and counted either way. */
  method RunWith(entries: array<Entry>, miles: map<string, int>, apply: bool) returns (updated: int)
    modifies entries
    ensures updated == CountNeeding(miles, old(entries[..]))
    ensures entries[..] == if apply then BackfillAll(miles, old(entries[..])) else old(entries[..])
  {
    ghost var before := entries[..];
    ghost var after := if apply then BackfillAll(miles, before) else before;
    updated := 0;
    var i := 0;
    while i < entries.Length
      invariant 0 <= i <= entries.Length
      invariant updated == CountNeeding(miles, before[..i])
      invariant forall j :: 0 <= j < i ==> entries[j] == after[j]
      invariant forall j :: i <= j < entries.Length ==> entries[j] == before[j]
    {
      var entry := entries[i];
      var current := entry.miles.GetOr(0);
      var default := DefaultFor(miles, entry);
      assert before[..i + 1][..i] == before[..i];
      if current == 0 && default > 0 {
        if apply {
          entries[i] := entry.(miles := Some(default));
        }
        updated := updated + 1;
      }
      i := i + 1;
    }
    assert before[..entries.Length] == before;
  }

  /** `main` without the file I/O: the miles table built from the clients,
      then the loop. */
  method Run(entries: array<Entry>, clients: seq<Client>, apply: bool) returns (updated: int)
    modifies entries
    ensures updated == CountNeeding(ClientMiles(clients), old(entries[..]))
    ensures entries[..] == if apply then BackfillAll(ClientMiles(clients), old(entries[..])) else old(entries[..])
  {
    var clientMiles := ClientMiles(clients);
    updated := RunWith(entries, clientMiles, apply);
  }
}
