/** The record rules of both front ends: building session, expense and
    client records from a request or a form, deleting by id, the
    confirm-gated clear and the configuration update, and the data files
    they change, held by `Store`. */
module Records {
  import opened Wrappers
  import opened Seqs
  import opened Calendar
  import opened Domain
  import opened Hours
  import opened Settings
  import opened Rounding

  // ---------------------------------------------------------------------------
  // Delete by id: `[x for x in items if x["id"] != id]`
  // ---------------------------------------------------------------------------

  function IdIsNot<T>(idOf: T -> string, id: string): T -> bool {
    x => idOf(x) != id
  }

  /** Exactly the records whose id differs, in their original order: none
      with the id is left and every other one stays. */
  function WithoutId<T(==)>(items: seq<T>, idOf: T -> string, id: string): (r: seq<T>)
    ensures IsFilter(r, items, IdIsNot(idOf, id))
    ensures forall i :: 0 <= i < |r| ==> idOf(r[i]) != id
    ensures forall i :: 0 <= i < |items| && idOf(items[i]) != id ==> items[i] in r
  {
    var r := Keep(items, IdIsNot(idOf, id));
    forall i | 0 <= i < |items| && idOf(items[i]) != id ensures items[i] in r {
      assert multiset(r)[items[i]] == multiset(items)[items[i]];
      assert items[i] in multiset(items);
    }
    r
  }

  /** Deleting an id no record has changes nothing. */
  lemma WithoutIdAbsent<T>(items: seq<T>, idOf: T -> string, id: string)
    requires forall i :: 0 <= i < |items| ==> idOf(items[i]) != id
    ensures WithoutId(items, idOf, id) == items
  {
    KeepAll(items, IdIsNot(idOf, id));
  }

  /** Deleting the same id twice is deleting it once. */
  lemma WithoutIdIdempotent<T>(items: seq<T>, idOf: T -> string, id: string)
    ensures WithoutId(WithoutId(items, idOf, id), idOf, id) == WithoutId(items, idOf, id)
  {
    KeepIdempotent(items, IdIsNot(idOf, id));
  }

  // ---------------------------------------------------------------------------
  // `list.remove(x)` in app.py
  // ---------------------------------------------------------------------------

  /** The position of the first occurrence of `x`. */
  function IndexOf<T(==)>(s: seq<T>, x: T): (i: int)
    requires x in s
    ensures 0 <= i < |s| && s[i] == x && x !in s[..i]
    decreases |s|
  {
    if s[0] == x then 0
    else
      var i := IndexOf(s[1..], x);
      assert s[..i + 1] == [s[0]] + s[1..][..i];
      i + 1
  }

  /** The first occurrence of `x` taken out; `None` (Python's ValueError)
      when there is none. */
  function RemoveFirst<T(==)>(s: seq<T>, x: T): (r: Option<seq<T>>)
    ensures x !in s <==> r.None?
    ensures r.Some? ==> |r.value| == |s| - 1
    ensures r.Some? ==> r.value == s[..IndexOf(s, x)] + s[IndexOf(s, x) + 1..]
  {
    if x in s then Some(s[..IndexOf(s, x)] + s[IndexOf(s, x) + 1..]) else None
  }

  /** Removing takes away one copy of `x` and nothing else. */
  lemma RemoveFirstMultiset<T>(s: seq<T>, x: T)
    requires x in s
    ensures multiset(RemoveFirst(s, x).value) == multiset(s) - multiset{x}
  {
    var i := IndexOf(s, x);
    assert s == s[..i] + [x] + s[i + 1..];
  }

  // ---------------------------------------------------------------------------
  // The clear gate
  // ---------------------------------------------------------------------------

  /** `request.args.get("confirm") == "true"`. */
  predicate Confirmed(confirm: Option<string>) {
    confirm == Some("true")
  }

  // ---------------------------------------------------------------------------
  // Building records
  // ---------------------------------------------------------------------------

  /** The fields of a JSON request; a missing field is `None`. */
  datatype EntryRequest = EntryRequest(clientId: Option<string>, date: Option<Date>, startTime: Option<string>, endTime: Option<string>)
  datatype ExpenseRequest = ExpenseRequest(clientId: Option<string>, date: Option<Date>, amount: Option<Amount>, description: Option<string>)

  /** A request's amount: one `float()` reads, already rounded to pence, or
      one it refuses with ValueError or TypeError ("abc", a list). */
  datatype Amount = Numeric(pence: int) | NotNumeric
  datatype ClientRequest = ClientRequest(name: Option<string>, address: Option<string>)

  /** Why a record was not created. */
  datatype RequestError = MissingField(field: string) | BadTime | RateNotNumber | AmountNotNumber | NotPositive

  /** The configured rate, when it is a number. */
  function Rate(config: Config): Option<int> {
    if "hourly_rate" in config && config["hourly_rate"].Number? then Some(config["hourly_rate"].n) else None
  }

  /** `create_entry`: the first missing field of client, date, start and end
      is reported; times that cannot be read and a rate that is not a number
      are errors. Otherwise the session stores both times as given, its
      hours to the nearest hundredth, the configured rate, and as amount the
      nearest penny to the exact minutes times the rate. */
  function BuildEntry(req: EntryRequest, config: Config, id: string): (r: Result<Entry, RequestError>)
    ensures req.clientId.None? ==> r == Err(MissingField("client_id"))
    ensures req.clientId.Some? && req.date.None? ==> r == Err(MissingField("date"))
    ensures req.clientId.Some? && req.date.Some? && req.startTime.None? ==> r == Err(MissingField("start_time"))
    ensures req.clientId.Some? && req.date.Some? && req.startTime.Some? && req.endTime.None? ==> r == Err(MissingField("end_time"))
    ensures req.clientId.Some? && req.date.Some? && req.startTime.Some? && req.endTime.Some? ==>
      var minutes := CalculateMinutes(TimeText(req.startTime.value), TimeText(req.endTime.value));
      && (minutes.None? ==> r == Err(BadTime))
      && (minutes.Some? && Rate(config).None? ==> r == Err(RateNotNumber))
    ensures r.Ok? ==>
      && req.clientId.Some? && req.date.Some? && req.startTime.Some? && req.endTime.Some? && Rate(config).Some?
      && var minutes := CalculateMinutes(TimeText(req.startTime.value), TimeText(req.endTime.value));
      && minutes.Some?
      && var e := r.value;
      && e.id == id && e.clientId == req.clientId && e.date == req.date.value
      && e.startTime == req.startTime.value && e.endTime == req.endTime.value
      && 2 * Abs(e.hours * 60 - minutes.value * 100) < 60
      && e.hourlyRate == Rate(config).value
      && 2 * Abs(e.amount * 60 - minutes.value * e.hourlyRate) <= 60
      && e.miles.None?
  {
    if req.clientId.None? then Err(MissingField("client_id"))
    else if req.date.None? then Err(MissingField("date"))
    else if req.startTime.None? then Err(MissingField("start_time"))
    else if req.endTime.None? then Err(MissingField("end_time"))
    else
      match CalculateMinutes(TimeText(req.startTime.value), TimeText(req.endTime.value))
      case None => Err(BadTime)
      case Some(minutes) =>
        match Rate(config)
        case None => Err(RateNotNumber)
        case Some(rate) =>
          Ok(Entry(id, req.clientId, req.date.value, req.startTime.value, req.endTime.value,
                   StoredHours(minutes), rate, SessionAmount(minutes, rate), None))
  }

  /** The amount is charged on the exact minutes, not on the rounded hours
      stored beside it: twenty minutes at 15.00 an hour store 0.33 hours and
      charge 5.00, not 4.95. */
  lemma AmountFromExactMinutes()
    ensures StoredHours(20) == 33 && SessionAmount(20, 1500) == 500 && 33 * 1500 / 100 == 495
  {
    RoundHalfEvenUnique(2000, 60, 33);
    RoundHalfEvenUnique(30000, 60, 500);
  }

  /** `create_expense`: the first missing field of client, date and amount
      is reported, and an amount `float()` cannot read is an error; the
      description defaults to "Cleaning supplies". Any numeric amount is
      accepted, zero and negative ones included. */
  function BuildExpense(req: ExpenseRequest, id: string): (r: Result<Expense, RequestError>)
    ensures req.clientId.None? ==> r == Err(MissingField("client_id"))
    ensures req.clientId.Some? && req.date.None? ==> r == Err(MissingField("date"))
    ensures req.clientId.Some? && req.date.Some? && req.amount.None? ==> r == Err(MissingField("amount"))
    ensures req.clientId.Some? && req.date.Some? && req.amount == Some(NotNumeric) ==> r == Err(AmountNotNumber)
    ensures r.Ok? <==> req.clientId.Some? && req.date.Some? && req.amount.Some? && req.amount.value.Numeric?
    ensures r.Ok? ==>
      && r.value.id == id && r.value.clientId == req.clientId && r.value.date == req.date.value
      && r.value.amount == req.amount.value.pence
      && r.value.description == Some(if req.description.Some? then req.description.value else DefaultDescription)
  {
    if req.clientId.None? then Err(MissingField("client_id"))
    else if req.date.None? then Err(MissingField("date"))
    else if req.amount.None? then Err(MissingField("amount"))
    else
      match req.amount.value
      case NotNumeric => Err(AmountNotNumber)
      case Numeric(pence) => Ok(Expense(id, req.clientId, req.date.value, pence, Some(req.description.GetOr(DefaultDescription))))
  }

  /** The characters Python's `str.strip()` removes, within Latin-1. */
  predicate IsSpace(c: char) {
    c in {' ', '\t', '\n', '\r', '\U{B}', '\U{C}', '\U{1C}', '\U{1D}', '\U{1E}', '\U{1F}', '\U{85}', '\U{A0}'}
  }

  /** `not s.strip()`. */
  predicate IsBlank(s: string) {
    forall i | 0 <= i < |s| :: IsSpace(s[i])
  }

  /** `create_client`: a missing or blank name is refused; the address
      defaults to empty and no default miles are set. */
  function BuildClient(req: ClientRequest, id: string): (r: Result<Client, RequestError>)
    ensures r.Err? <==> req.name.None? || IsBlank(req.name.value)
    ensures r.Err? ==> r.error == MissingField("name")
    ensures r.Ok? ==> r.value == Client(id, req.name.value, if req.address.Some? then req.address.value else "", None)
  {
    if req.name.None? || IsBlank(req.name.value) then Err(MissingField("name"))
    else Ok(Client(id, req.name.value, req.address.GetOr(""), None))
  }

  /** "Add Client" in app.py: only an empty name is refused. */
  function BuildAppClient(name: string, address: string, id: string): (r: Result<Client, RequestError>)
    ensures r.Err? <==> name == ""
    ensures r.Ok? ==> r.value == Client(id, name, address, None)
  {
    if name == "" then Err(MissingField("name")) else Ok(Client(id, name, address, None))
  }

  /** The two front ends disagree on a name of spaces: the app adds the
      client, the web app refuses it. */
  lemma BlankNameAccepted()
    ensures BuildAppClient(" ", "", "c").Ok? && BuildClient(ClientRequest(Some(" "), None), "c").Err?
  {
    assert IsSpace(" "[0]);
  }

  /** "Save Entry" in app.py, from the two time pickers. */
  function BuildAppEntry(clientId: string, date: Date, start: TimeOfDay, end: TimeOfDay, config: Config, id: string): (r: Result<Entry, RequestError>)
    ensures r.Ok? <==> Rate(config).Some?
    ensures r.Ok? ==> 0 <= r.value.hours <= 2400 && r.value.startTime == ClockText(start) && r.value.endTime == ClockText(end)
  {
    match Rate(config)
    case None => Err(RateNotNumber)
    case Some(rate) =>
      var minutes := AppCalculateMinutes(start, end);
      StoredHoursBounds(minutes);
      Ok(Entry(id, Some(clientId), date, ClockText(start), ClockText(end),
               StoredHours(minutes), rate, SessionAmount(minutes, rate), None))
  }

  lemma StoredHoursBounds(minutes: int)
    requires 0 <= minutes < MinutesPerDay
    ensures 0 <= StoredHours(minutes) <= 2400
  {
  }

  /** A session saved in app.py is the one the web app builds from the same
      times written as "HH:MM". */
  lemma AppEntryAgrees(clientId: string, date: Date, start: TimeOfDay, end: TimeOfDay, config: Config, id: string)
    ensures BuildAppEntry(clientId, date, start, end, config, id)
         == BuildEntry(EntryRequest(Some(clientId), Some(date), Some(ClockText(start)), Some(ClockText(end))), config, id)
  {
    ClockTextMinutes(start);
    ClockTextMinutes(end);
  }

  /** "Save Expense" in app.py: refused unless the amount is positive. */
  function BuildAppExpense(clientId: string, date: Date, amount: int, description: string, id: string): (r: Result<Expense, RequestError>)
    ensures r.Err? <==> amount <= 0
    ensures r.Ok? ==> r.value == Expense(id, Some(clientId), date, amount, Some(description))
  {
    if amount > 0 then Ok(Expense(id, Some(clientId), date, amount, Some(description))) else Err(NotPositive)
  }

  // ---------------------------------------------------------------------------
  // The data files
  // ---------------------------------------------------------------------------

  /** The tracker's data files as loaded: the sessions and expenses (an
      absent file reads as empty), and the clients and configuration files,
      which may be absent. */
  class Store {
    var entries: seq<Entry>
    var expenses: seq<Expense>
    var clientsFile: Option<seq<Client>>
    var configFile: Option<Config>

    /** A data directory with no files yet. */
    constructor ()
      ensures entries == [] && expenses == [] && clientsFile.None? && configFile.None?
    {
      entries := [];
      expenses := [];
      clientsFile := None;
      configFile := None;
    }

    /** `load_json(CLIENTS_FILE, list(DEFAULT_CLIENTS))`. */
    function Clients(): seq<Client>
      reads this
    {
      clientsFile.GetOr(DefaultClients)
    }

    /** `load_config()`. */
    function Settings(): Config
      reads this
    {
      LoadConfig(configFile)
    }

    /** POST /api/entries: the built session is appended, or nothing changes. */
    method CreateEntry(req: EntryRequest, id: string) returns (r: Result<Entry, RequestError>)
      modifies this
      ensures r == BuildEntry(req, old(Settings()), id)
      ensures entries == if r.Ok? then old(entries) + [r.value] else old(entries)
      ensures expenses == old(expenses) && clientsFile == old(clientsFile) && configFile == old(configFile)
    {
      r := BuildEntry(req, Settings(), id);
      if r.Ok? {
        entries := entries + [r.value];
      }
    }

    /** POST /api/expenses. */
    method CreateExpense(req: ExpenseRequest, id: string) returns (r: Result<Expense, RequestError>)
      modifies this
      ensures r == BuildExpense(req, id)
      ensures expenses == if r.Ok? then old(expenses) + [r.value] else old(expenses)
      ensures entries == old(entries) && clientsFile == old(clientsFile) && configFile == old(configFile)
    {
      r := BuildExpense(req, id);
      if r.Ok? {
        expenses := expenses + [r.value];
      }
    }

    /** DELETE /api/entries/<id>. */
    method DeleteEntry(id: string)
      modifies this
      ensures entries == WithoutId(old(entries), EntryId, id)
      ensures expenses == old(expenses) && clientsFile == old(clientsFile) && configFile == old(configFile)
    {
      entries := WithoutId(entries, EntryId, id);
    }

    /** DELETE /api/expenses/<id>. */
    method DeleteExpense(id: string)
      modifies this
      ensures expenses == WithoutId(old(expenses), ExpenseId, id)
      ensures entries == old(entries) && clientsFile == old(clientsFile) && configFile == old(configFile)
    {
      expenses := WithoutId(expenses, ExpenseId, id);
    }

    /** DELETE /api/entries: only with `confirm=true`. */
    method ClearEntries(confirm: Option<string>) returns (cleared: bool)
      modifies this
      ensures cleared <==> Confirmed(confirm)
      ensures entries == if cleared then [] else old(entries)
      ensures expenses == old(expenses) && clientsFile == old(clientsFile) && configFile == old(configFile)
    {
      cleared := Confirmed(confirm);
      if cleared {
        entries := [];
      }
    }

    /** DELETE /api/expenses: only with `confirm=true`. */
    method ClearExpenses(confirm: Option<string>) returns (cleared: bool)
      modifies this
      ensures cleared <==> Confirmed(confirm)
      ensures expenses == if cleared then [] else old(expenses)
      ensures entries == old(entries) && clientsFile == old(clientsFile) && configFile == old(configFile)
    {
      cleared := Confirmed(confirm);
      if cleared {
        expenses := [];
      }
    }

    /** PUT /api/config: the loaded configuration with the request's known
      keys written over it is saved and returned. */
    method PutConfig(data: Config) returns (saved: Config)
      modifies this
      ensures saved == Overlay(old(Settings()), data, data.Keys * DefaultConfig.Keys)
      ensures configFile == Some(saved)
      ensures entries == old(entries) && expenses == old(expenses) && clientsFile == old(clientsFile)
    {
      saved := UpdateConfig(Settings(), data);
      configFile := Some(saved);
    }

    /** "Save Settings" in app.py: the form's thirteen values are written
        over the loaded configuration and saved. */
    method SaveSettings(form: SettingsForm) returns (saved: Config)
      modifies this
      ensures saved.Keys == old(Settings()).Keys
      ensures forall k :: k in saved ==> saved[k] == if k in DefaultConfig then FormValues(form)[k] else old(Settings())[k]
      ensures configFile == Some(saved) && Settings() == saved
      ensures entries == old(entries) && expenses == old(expenses) && clientsFile == old(clientsFile)
    {
      SavedForm(configFile, form);
      // The thirteen `config[key] = ...` assignments, one per key of the form.
      var config := Settings() + FormValues(form);
      saved := config;
      configFile := Some(saved);
    }

    /** POST /api/clients: the built client is appended to the loaded list. */
    method CreateClient(req: ClientRequest, id: string) returns (r: Result<Client, RequestError>)
      modifies this
      ensures r == BuildClient(req, id)
      ensures clientsFile == if r.Ok? then Some(old(Clients()) + [r.value]) else old(clientsFile)
      ensures entries == old(entries) && expenses == old(expenses) && configFile == old(configFile)
    {
      r := BuildClient(req, id);
      if r.Ok? {
        clientsFile := Some(Clients() + [r.value]);
      }
    }

    /** DELETE /api/clients/<id>, and "Delete Client" in app.py. */
    method DeleteClient(id: string)
      modifies this
      ensures clientsFile == Some(WithoutId(old(Clients()), ClientId, id))
      ensures entries == old(entries) && expenses == old(expenses) && configFile == old(configFile)
    {
      clientsFile := Some(WithoutId(Clients(), ClientId, id));
    }

    /** "Save Entry" in app.py. */
    method SaveEntry(clientId: string, date: Date, start: TimeOfDay, end: TimeOfDay, id: string) returns (r: Result<Entry, RequestError>)
      modifies this
      ensures r == BuildAppEntry(clientId, date, start, end, old(Settings()), id)
      ensures entries == if r.Ok? then old(entries) + [r.value] else old(entries)
      ensures expenses == old(expenses) && clientsFile == old(clientsFile) && configFile == old(configFile)
    {
      r := BuildAppEntry(clientId, date, start, end, Settings(), id);
      if r.Ok? {
        entries := entries + [r.value];
      }
    }

    /** "Save Expense" in app.py: exactly one record is appended when the
      amount is positive, none otherwise. */
    method SaveExpense(clientId: string, date: Date, amount: int, description: string, id: string) returns (r: Result<Expense, RequestError>)
      modifies this
      ensures r == BuildAppExpense(clientId, date, amount, description, id)
      ensures |expenses| == |old(expenses)| + (if amount > 0 then 1 else 0)
      ensures expenses == if r.Ok? then old(expenses) + [r.value] else old(expenses)
      ensures entries == old(entries) && clientsFile == old(clientsFile) && configFile == old(configFile)
    {
      r := BuildAppExpense(clientId, date, amount, description, id);
      if r.Ok? {
        expenses := expenses + [r.value];
      }
    }

    /** "Delete Selected" on a session in app.py: `entries.remove(entry)`. */
    method RemoveEntry(e: Entry) returns (removed: bool)
      modifies this
      ensures removed <==> e in old(entries)
      ensures entries == if removed then RemoveFirst(old(entries), e).value else old(entries)
      ensures expenses == old(expenses) && clientsFile == old(clientsFile) && configFile == old(configFile)
    {
      var r := RemoveFirst(entries, e);
      removed := r.Some?;
      if removed {
        entries := r.value;
      }
    }

    /** "Delete Selected" on an expense in app.py. */
    method RemoveExpense(x: Expense) returns (removed: bool)
      modifies this
      ensures removed <==> x in old(expenses)
      ensures expenses == if removed then RemoveFirst(old(expenses), x).value else old(expenses)
      ensures entries == old(entries) && clientsFile == old(clientsFile) && configFile == old(configFile)
    {
      var r := RemoveFirst(expenses, x);
      removed := r.Some?;
      if removed {
        expenses := r.value;
      }
    }

    /** "Add Client" in app.py. */
    method AddClient(name: string, address: string, id: string) returns (r: Result<Client, RequestError>)
      modifies this
      ensures r == BuildAppClient(name, address, id)
      ensures clientsFile == if r.Ok? then Some(old(Clients()) + [r.value]) else old(clientsFile)
      ensures entries == old(entries) && expenses == old(expenses) && configFile == old(configFile)
    {
      r := BuildAppClient(name, address, id);
      if r.Ok? {
        clientsFile := Some(Clients() + [r.value]);
      }
    }

    /** "Yes" under "Delete all work entries?" in app.py. */
    method ClearAllEntries()
      modifies this
      ensures entries == []
      ensures expenses == old(expenses) && clientsFile == old(clientsFile) && configFile == old(configFile)
    {
      entries := [];
    }

    /** "Yes" under "Delete all expenses?" in app.py. */
    method ClearAllExpenses()
      modifies this
      ensures expenses == []
      ensures entries == old(entries) && clientsFile == old(clientsFile) && configFile == old(configFile)
    {
      expenses := [];
    }
  }
}
