/** The JSON exporter: projects the token, the items with their accounts
    and the transactions onto the exported fields, and writes the result to
    a path. */
module Exporter {
  import opened Js

  const MissingPathMessage: string := "Required path is missing"

  /** The account fields kept in the export. */
  const AccountFields: set<string> := {"id", "name", "balance", "status", "status_code_info",
    "status_code_description", "updated_at", "type", "currency_code", "iban"}

  /** The transaction fields kept in the export. */
  const TransactionFields: set<string> := {"id", "clean_description", "bank_description", "amount",
    "date", "updated_at", "currency_code", "is_deleted", "category_id", "account_id", "is_future",
    "show_client_side"}

  const OutputKeys: set<string> := {"access_token", "items", "transactions"}

  /** The files written so far, by path. A file holds the exported value
      (its serialisation is not modelled). */
  class Disk {
    var files: map<Json, Json>

    constructor ()
      ensures files == map[]
    {
      files := map[];
    }

    method Write(path: Json, data: Json)
      modifies this
      ensures files == old(files)[path := data]
    {
      files := files[path := data];
    }
  }

  /** `{ f1: v.f1, ..., fn: v.fn }`: throws on null and undefined. */
  function Project(v: Json, fields: set<string>): (r: Result<Json>)
    ensures r.Err? <==> Nullish(v)
    ensures r.Ok? ==>
      && r.value.Obj? && r.value.fields.Keys == fields
      && (forall k :: k in fields ==> r.value.fields[k] == Field(v, k))
  {
    if Nullish(v) then Err(TypeError) else Ok(Obj(map k | k in fields :: Field(v, k)))
  }

  function ProjectAccount(account: Json): Result<Json> {
    Project(account, AccountFields)
  }

  function ProjectTransaction(transaction: Json): Result<Json> {
    Project(transaction, TransactionFields)
  }

  /** `v.map(f)`: only arrays have a `map` method. */
  function MapArray(v: Json, f: Json -> Result<Json>): Result<Json> {
    if v.Arr? then
      match MapResults(v.elems, f)
      case Ok(ys) => Ok(Arr(ys))
      case Err(e) => Err(e)
    else Err(TypeError)
  }

  /** `{ ...item, accounts: item.accounts.map(project) }` */
  function FormatItem(item: Json): (r: Result<Json>)
    ensures r.Ok? ==> !Nullish(item) && Field(item, "accounts").Arr?
    ensures r.Err? ==> r.error == TypeError
  {
    match Member(item, "accounts")
    case Err(e) => Err(e)
    case Ok(accounts) =>
      match MapArray(accounts, ProjectAccount)
      case Err(e) => Err(e)
      case Ok(projected) => Ok(Obj(ObjectSpread(item)["accounts" := projected]))
  }

  /** `{ value: tokenInfo.access_token, expires_at: tokenInfo.expires_at }` */
  function FormatToken(tokenInfo: Json): (r: Result<Json>)
    ensures r.Ok? <==> !Nullish(tokenInfo)
    ensures r.Ok? ==>
      && r.value.Obj? && r.value.fields.Keys == {"value", "expires_at"}
      && r.value.fields["value"] == Field(tokenInfo, "access_token")
      && r.value.fields["expires_at"] == Field(tokenInfo, "expires_at")
    ensures r.Err? ==> r.error == TypeError
  {
    match Member(tokenInfo, "access_token")
    case Err(e) => Err(e)
    case Ok(value) => Ok(Obj(map["value" := value, "expires_at" := Field(tokenInfo, "expires_at")]))
  }

  /** `#formatData`: token block, then items, then transactions. */
  function FormatData(tokenInfo: Json, items: Json, transactions: Json): (r: Result<Json>)
    ensures r.Ok? ==>
      && !Nullish(tokenInfo) && items.Arr? && transactions.Arr?
      && r.value.Obj? && r.value.fields.Keys == OutputKeys
    ensures r.Err? ==> r.error == TypeError
  {
    match FormatToken(tokenInfo)
    case Err(e) => Err(e)
    case Ok(token) =>
      match MapArray(items, FormatItem)
      case Err(e) => Err(e)
      case Ok(formattedItems) =>
        match MapArray(transactions, ProjectTransaction)
        case Err(e) => Err(e)
        case Ok(formattedTransactions) =>
          Ok(Obj(map["access_token" := token, "items" := formattedItems, "transactions" := formattedTransactions]))
  }

  /** What `export(path)` writes to `path`, or why it throws. */
  function ExportData(tokenInfo: Json, items: Json, transactions: Json, path: Json): (r: Result<Json>)
    ensures r.Ok? <==> Truthy(path) && FormatData(tokenInfo, items, transactions).Ok?
    ensures r.Ok? ==> r.value == FormatData(tokenInfo, items, transactions).value
    ensures !Truthy(path) ==> r == Err(MissingParameter(MissingPathMessage))
  {
    if !Truthy(path) then Err(MissingParameter(MissingPathMessage))
    else FormatData(tokenInfo, items, transactions)
  }

  class JsonExporter {
    const tokenInfo: Json
    const items: Json
    const transactions: Json

    constructor (tokenInfo: Json, items: Json, transactions: Json)
      ensures this.tokenInfo == tokenInfo && this.items == items && this.transactions == transactions
    {
      this.tokenInfo := tokenInfo;
      this.items := items;
      this.transactions := transactions;
    }

    /** The path guard, the formatting, then the write; a failure writes
        nothing. */
    method Export(path: Json, disk: Disk) returns (r: Outcome)
      modifies disk
      ensures var data := ExportData(tokenInfo, items, transactions, path);
        && (r.Pass? <==> data.Ok?)
        && (r.Fail? ==> r.error == data.error)
        && disk.files == if data.Ok? then old(disk.files)[path := data.value] else old(disk.files)
    {
      if !Truthy(path) {
        return Fail(MissingParameter(MissingPathMessage));
      }
      var dataToExport := FormatData(tokenInfo, items, transactions);
      if dataToExport.Err? {
        return Fail(dataToExport.error);
      }
      disk.Write(path, dataToExport.value);
      return Pass;
    }
  }

  /** An item that formats is the same item with its `accounts` replaced by
      their projections, in the same number and order. */
  predicate FormattedItem(item: Json, out: Json) {
    && item.Obj? && out.Obj?
    && out.fields.Keys == item.fields.Keys + {"accounts"}
    && (forall k :: k in item.fields && k != "accounts" ==> out.fields[k] == item.fields[k])
    && Field(item, "accounts").Arr? && out.fields["accounts"].Arr?
    && |out.fields["accounts"].elems| == |Field(item, "accounts").elems|
    && (forall j :: 0 <= j < |Field(item, "accounts").elems| ==>
          && !Nullish(Field(item, "accounts").elems[j])
          && out.fields["accounts"].elems[j].Obj?
          && out.fields["accounts"].elems[j].fields.Keys == AccountFields
          && (forall f :: f in AccountFields ==>
                out.fields["accounts"].elems[j].fields[f] == Field(Field(item, "accounts").elems[j], f)))
  }

  /** An item formats exactly when its `accounts` is an array without null
      or undefined entries, and then yields `FormattedItem`. */
  lemma FormatItemProjects(item: Json)
    ensures FormatItem(item).Ok? <==>
      !Nullish(item) && Field(item, "accounts").Arr?
      && forall j :: 0 <= j < |Field(item, "accounts").elems| ==> !Nullish(Field(item, "accounts").elems[j])
    ensures FormatItem(item).Ok? ==> (item.Obj? && FormattedItem(item, FormatItem(item).value))
    ensures FormatItem(item).Err? ==> FormatItem(item).error == TypeError
  {
    if !Nullish(item) && Field(item, "accounts").Arr? {
      var accounts := Field(item, "accounts").elems;
      var m := MapResults(accounts, ProjectAccount);
      if m.Err? {
        var j :| 0 <= j < |accounts| && ProjectAccount(accounts[j]).Err? && m.error == ProjectAccount(accounts[j]).error;
        assert Nullish(accounts[j]);
      } else {
        forall j | 0 <= j < |accounts|
          ensures !Nullish(accounts[j])
        {
          assert ProjectAccount(accounts[j]).Ok?;
        }
      }
    }
  }

  /** The token block is exactly the access token and its expiry. */
  lemma TokenBlock(tokenInfo: Json, items: Json, transactions: Json)
    ensures FormatData(tokenInfo, items, transactions).Ok? ==>
      FormatData(tokenInfo, items, transactions).value.fields["access_token"]
        == Obj(map["value" := Field(tokenInfo, "access_token"), "expires_at" := Field(tokenInfo, "expires_at")])
    ensures Nullish(tokenInfo) ==> FormatData(tokenInfo, items, transactions) == Err(TypeError)
  {
  }

  /** The output has exactly the three top-level keys; items and
      transactions keep their number and order, each item is formatted as
      `FormattedItem` says and each transaction is projected onto exactly the
      twelve transaction fields. */
  lemma FormatDataShape(tokenInfo: Json, items: Json, transactions: Json)
    requires FormatData(tokenInfo, items, transactions).Ok?
    ensures var out := FormatData(tokenInfo, items, transactions).value;
      && out.Obj? && out.fields.Keys == OutputKeys
      && items.Arr? && out.fields["items"].Arr? && |out.fields["items"].elems| == |items.elems|
      && (forall i :: 0 <= i < |items.elems| ==> FormattedItem(items.elems[i], out.fields["items"].elems[i]))
      && transactions.Arr? && out.fields["transactions"].Arr?
      && |out.fields["transactions"].elems| == |transactions.elems|
      && (forall i :: 0 <= i < |transactions.elems| ==>
            && out.fields["transactions"].elems[i].Obj?
            && out.fields["transactions"].elems[i].fields.Keys == TransactionFields
            && (forall f :: f in TransactionFields ==>
                  out.fields["transactions"].elems[i].fields[f] == Field(transactions.elems[i], f)))
  {
    var out := FormatData(tokenInfo, items, transactions).value;
    forall i | 0 <= i < |items.elems|
      ensures FormattedItem(items.elems[i], out.fields["items"].elems[i])
    {
      FormatItemProjects(items.elems[i]);
    }
    forall i | 0 <= i < |transactions.elems|
      ensures out.fields["transactions"].elems[i] == ProjectTransaction(transactions.elems[i]).value
    {
    }
  }

  /** Formatting fails exactly when the token info is absent, the items or
      the transactions are not arrays, an item cannot be formatted, or a
      transaction is null or undefined. */
  lemma FormatDataFails(tokenInfo: Json, items: Json, transactions: Json)
    ensures FormatData(tokenInfo, items, transactions).Ok? <==>
      && !Nullish(tokenInfo)
      && items.Arr? && (forall i :: 0 <= i < |items.elems| ==> FormatItem(items.elems[i]).Ok?)
      && transactions.Arr? && (forall i :: 0 <= i < |transactions.elems| ==> !Nullish(transactions.elems[i]))
  {
    if transactions.Arr? {
      var ts := transactions.elems;
      forall i | 0 <= i < |ts|
        ensures ProjectTransaction(ts[i]).Ok? <==> !Nullish(ts[i])
      {
      }
    }
  }

  /** A falsy path is refused before anything is formatted: even data that
      cannot be formatted gives the path error. */
  lemma ExportNeedsPath(tokenInfo: Json, items: Json, transactions: Json, path: Json)
    requires !Truthy(path)
    ensures ExportData(tokenInfo, items, transactions, path) == Err(MissingParameter("Required path is missing"))
  {
  }
}
