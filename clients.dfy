/** Client lookups: `get_client_by_id` (the same in helpers.py and app.py) and
    the name-to-id dictionary `get_client_names`. */
module Clients {
  import opened Wrappers
  import opened Domain
  import opened Seqs

  /** What `get_client_by_id` returns when there are no clients at all. */
  const Placeholder: Client := Client("default", "Unknown", "", None)

  /** The placeholder is client "default", named "Unknown", with an empty
      address and no default miles. */
  lemma PlaceholderClient()
    ensures Placeholder.id == "default" && Placeholder.name == "Unknown"
    ensures Placeholder.address == "" && Placeholder.defaultMiles.None?
  {
  }

  /** `get_client_by_id`: the first client with the id; when none has it, the
      first client; when the list is empty, the placeholder. */
  method GetClientById(clients: seq<Client>, id: string) returns (c: Client)
    ensures (exists i :: 0 <= i < |clients| && clients[i].id == id) ==>
      exists i :: 0 <= i < |clients| && clients[i] == c && c.id == id
        && forall j :: 0 <= j < i ==> clients[j].id != id
    ensures (forall i :: 0 <= i < |clients| ==> clients[i].id != id) ==>
      c == if |clients| > 0 then clients[0] else Placeholder
  {
    var i := 0;
    while i < |clients|
      invariant 0 <= i <= |clients|
      invariant forall j :: 0 <= j < i ==> clients[j].id != id
    {
      if clients[i].id == id {
        return clients[i];
      }
      i := i + 1;
    }
    c := if |clients| > 0 then clients[0] else Placeholder;
  }

  /** No later client has the same name as client `i`. */
  ghost predicate LastWithName(clients: seq<Client>, i: int)
    requires 0 <= i < |clients|
  {
    forall j :: i < j < |clients| ==> clients[j].name != clients[i].name
  }

  /** `get_client_names`: one key per distinct name; a name held by several
      clients maps to the id of the last of them. */
  function ClientNames(clients: seq<Client>): (m: map<string, string>)
    ensures m.Keys == set i | 0 <= i < |clients| :: clients[i].name
    ensures forall i :: 0 <= i < |clients| && LastWithName(clients, i) ==> m[clients[i].name] == clients[i].id
  {
    IndexBy(clients, ClientName, ClientId)
  }

  /** With distinct names, every client's name leads back to its id. */
  lemma ClientNamesDistinct(clients: seq<Client>)
    requires forall i, j :: 0 <= i < j < |clients| ==> clients[i].name != clients[j].name
    ensures forall i :: 0 <= i < |clients| ==> ClientNames(clients)[clients[i].name] == clients[i].id
  {
  }

  /** Two clients called the same: the later one's id is kept. */
  lemma ClientNamesLastWins()
    ensures ClientNames([Client("a", "Smith", "", None), Client("b", "Smith", "", None)]) == map["Smith" := "b"]
  {
    var cs := [Client("a", "Smith", "", None), Client("b", "Smith", "", None)];
    var m := ClientNames(cs);
    assert m.Keys == {"Smith"} by {
      assert cs[0].name == "Smith" && cs[1].name == "Smith";
    }
    assert m[cs[1].name] == "b";
  }
}
