/** The records the tracker keeps in its JSON files: work sessions ("entries"),
    expenses, clients and the business configuration.

    Units: a session's `hours` is held in hundredths of an hour, because the
    tracker stores `round(hours, 2)`; money is held in pence; the hourly rate in
    pence per hour; miles as whole miles. A key that a stored record may lack is
    an `Option`. */
module Domain {
  import opened Wrappers
  import opened Calendar

  /** One logged session. `startTime` and `endTime` are the "HH:MM" texts the
      session was created from. */
  datatype Entry = Entry(
    id: string,
    clientId: Option<string>,
    date: Date,
    startTime: string,
    endTime: string,
    hours: int,
    hourlyRate: int,
    amount: int,
    miles: Option<int>)

  datatype Expense = Expense(
    id: string,
    clientId: Option<string>,
    date: Date,
    amount: int,
    description: Option<string>)

  datatype Client = Client(
    id: string,
    name: string,
    address: string,
    defaultMiles: Option<int>)

  // Field accessors, passed to the generic list operations.

  function EntryClient(e: Entry): Option<string> { e.clientId }
  function ExpenseClient(x: Expense): Option<string> { x.clientId }
  function EntryDate(e: Entry): Date { e.date }
  function ExpenseDate(x: Expense): Date { x.date }
  function EntryId(e: Entry): string { e.id }
  function ExpenseId(x: Expense): string { x.id }
  function ClientId(c: Client): string { c.id }
  function ClientName(c: Client): string { c.name }
  function EntryHours(e: Entry): int { e.hours }
  function EntryAmount(e: Entry): int { e.amount }
  function ExpenseAmount(x: Expense): int { x.amount }
  function EntryDateKey(e: Entry): int { DateKey(e.date) }
  function ExpenseDateKey(x: Expense): int { DateKey(x.date) }

  /** The description an expense gets, and is shown with, when it has none. */
  const DefaultDescription: string := "Cleaning supplies"

  /** The client the tracker falls back to when there is no clients file. */
  const DefaultClients: seq<Client> := [Client("client_1", "Client 1", "Address\nCity, Postcode", Some(0))]

  // ---------------------------------------------------------------------------
  // Configuration
  // ---------------------------------------------------------------------------

  /** The fallback client list is the one client "client_1", with 0 default
      miles. */
  lemma DefaultClientsValue()
    ensures |DefaultClients| == 1
    ensures DefaultClients[0].id == "client_1" && DefaultClients[0].name == "Client 1"
    ensures DefaultClients[0].address == "Address\nCity, Postcode" && DefaultClients[0].defaultMiles == Some(0)
  {
  }

  /** A configuration value. Numeric settings are whole numbers in the unit of
      their key: `hourly_rate` in pence per hour, `payment_terms` in days,
      `tax_year_start_month` a month number. */
  datatype Value = Number(n: int) | Text(s: string)

  type Config = map<string, Value>

  const DefaultConfig: Config := map[
    "hourly_rate" := Number(1500),
    "tax_year_start_month" := Number(4),
    "currency_symbol" := Text("£"),
    "business_name" := Text("Your Name"),
    "business_address" := Text("Your Address\nCity, Postcode"),
    "business_email" := Text("your.email@example.com"),
    "business_phone" := Text("07xxx xxxxxx"),
    "payment_terms" := Number(14),
    "bank_name" := Text("Your Bank"),
    "account_name" := Text("Your Name"),
    "sort_code" := Text("00-00-00"),
    "account_number" := Text("00000000"),
    "invoice_prefix" := Text("INV")]

  /** The defaults have the thirteen configuration keys; the rate is 15.00
      an hour, the tax year starts in April, invoices are due in 14 days and
      are numbered with "INV" in pounds. */
  lemma DefaultConfigValues()
    ensures DefaultConfig.Keys == {"hourly_rate", "tax_year_start_month", "currency_symbol", "business_name",
                                   "business_address", "business_email", "business_phone", "payment_terms",
                                   "bank_name", "account_name", "sort_code", "account_number", "invoice_prefix"}
    ensures DefaultConfig["hourly_rate"] == Number(1500) && DefaultConfig["tax_year_start_month"] == Number(4)
    ensures DefaultConfig["payment_terms"] == Number(14) && DefaultConfig["currency_symbol"] == Text("£")
    ensures DefaultConfig["invoice_prefix"] == Text("INV")
  {
  }
}
