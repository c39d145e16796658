/** The Sage contacts loader: the contact list of a Sage response turned into
    warehouse rows, one per contact, and appended to the contacts table. */
module SagePipeline {
  import opened Basics
  import opened Json
  import opened BigQueryTokens

  /** One row of the contacts table. */
  datatype ContactRow = ContactRow(id: Value, name: Value, contactType: Value, email: Value)

  /** The contact list: `$items` when it is truthy, else `items` (an empty
      list when that key is missing too). */
  function ItemsOf(data: Dict): (items: Value)
    ensures PyTruthy(Get(data, "$items")) ==> items == data["$items"]
    ensures !PyTruthy(Get(data, "$items")) && "items" in data ==> items == data["items"]
    ensures PyTruthy(items) <==> PyTruthy(Get(data, "$items")) || PyTruthy(Get(data, "items"))
  {
    var first := Get(data, "$items");
    if PyTruthy(first) then first
    else if "items" in data then data["items"]
    else Arr([])
  }

  /** The row for one contact: its id, name and type as given (None when
      missing), and the address of its email only when the email is an
      object. */
  function ContactOf(item: map<string, Value>): (c: ContactRow)
    ensures c.id == Get(item, "id") && c.name == Get(item, "name") && c.contactType == Get(item, "contact_type")
    ensures !Get(item, "email").Obj? ==> c.email == Null
    ensures Get(item, "email").Obj? ==> c.email == Get(Get(item, "email").fields, "address")
  {
    var email := Get(item, "email");
    ContactRow(Get(item, "id"), Get(item, "name"), Get(item, "contact_type"),
               if email.Obj? then Get(email.fields, "address") else Null)
  }

  /** Every element of the list is an object, i.e. a dict. */
  predicate AllObjects(items: seq<Value>)
  {
    forall i :: 0 <= i < |items| ==> items[i].Obj?
  }

  /** The loop over the contact list: one row per contact, in order; the
      first element that is not a dict stops it, since it has no `.get`. */
  method MapContacts(items: seq<Value>) returns (r: Result<seq<ContactRow>, PyError>)
    ensures r.Ok? <==> AllObjects(items)
    ensures r.Err? ==> r.error == AttributeError
    ensures r.Ok? ==> |r.value| == |items|
    ensures r.Ok? ==> forall i :: 0 <= i < |items| ==> r.value[i] == ContactOf(items[i].fields)
  {
    var rows: seq<ContactRow> := [];
    var k := 0;
    while k < |items|
      invariant 0 <= k <= |items|
      invariant AllObjects(items[..k])
      invariant |rows| == k
      invariant forall i :: 0 <= i < k ==> items[i].Obj? && rows[i] == ContactOf(items[i].fields)
    {
      var item := items[k];
      if !item.Obj? {
        return Err(AttributeError);
      }
      rows := rows + [ContactOf(item.fields)];
      k := k + 1;
    }
    r := Ok(rows);
  }

  /** What iterating over a truthy value that is not a list does: a string
      yields strings and a dict yields its keys, neither of which has `.get`;
      a number or a boolean is not iterable at all. */
  function NotAListError(items: Value): (e: PyError)
    requires PyTruthy(items) && !items.Arr?
    ensures e == AttributeError <==> items.Str? || items.Obj?
    ensures e == TypeError <==> items.Num? || items.Bool?
  {
    if items.Str? || items.Obj? then AttributeError else TypeError
  }

  /** The contacts table. */
  class ContactTable {
    var rows: seq<ContactRow>

    constructor()
      ensures rows == []
    {
      rows := [];
    }

    /** `insert_rows`: the batch is appended when the warehouse accepts it;
        otherwise errors come back and the table is unchanged. */
    method InsertRows(batch: seq<ContactRow>, accepted: bool) returns (errors: bool)
      modifies this
      ensures errors == !accepted
      ensures rows == if accepted then old(rows) + batch else old(rows)
    {
      errors := !accepted;
      if accepted {
        rows := rows + batch;
      }
    }
  }

  /** How a load ends when nothing is raised. Insert errors are only
      reported, not raised. */
  datatype LoadOutcome = NothingToLoad | Loaded(count: nat) | InsertErrors

  /** `load_to_bigquery(data, table)`; `accepted` is the warehouse's verdict
      on the batch. */
  method LoadToWarehouse(data: Dict, table: ContactTable, accepted: bool)
    returns (outcome: Result<LoadOutcome, PyError>)
    modifies table
    ensures var items := ItemsOf(data);
            && (!PyTruthy(items) ==> outcome == Ok(NothingToLoad) && table.rows == old(table.rows))
            && (PyTruthy(items) && !items.Arr? ==> outcome == Err(NotAListError(items)) && table.rows == old(table.rows))
            && (items.Arr? && PyTruthy(items) && !AllObjects(items.items) ==>
                  outcome == Err(AttributeError) && table.rows == old(table.rows))
            && (items.Arr? && PyTruthy(items) && AllObjects(items.items) ==>
                  && outcome == (if accepted then Ok(Loaded(|items.items|)) else Ok(InsertErrors))
                  && table.rows == old(table.rows) + (if accepted then Contacts(items.items) else []))
  {
    var items := ItemsOf(data);
    if !PyTruthy(items) {
      return Ok(NothingToLoad);
    }
    if !items.Arr? {
      return Err(NotAListError(items));
    }
    var rows := MapContacts(items.items);
    if rows.Err? {
      return Err(rows.error);
    }
    ContactsAgree(items.items, rows.value);
    var errors := table.InsertRows(rows.value, accepted);
    if errors {
      outcome := Ok(InsertErrors);
    } else {
      outcome := Ok(Loaded(|rows.value|));
    }
  }

  /** The rows of a list of contacts, one per contact. */
  function Contacts(items: seq<Value>): (rows: seq<ContactRow>)
    requires AllObjects(items)
    ensures |rows| == |items|
    ensures forall i :: 0 <= i < |items| ==> rows[i] == ContactOf(items[i].fields)
  {
    seq(|items|, i requires 0 <= i < |items| => ContactOf(items[i].fields))
  }

  /** Rows that match the contacts one by one are the contacts' rows. */
  lemma ContactsAgree(items: seq<Value>, rows: seq<ContactRow>)
    requires AllObjects(items)
    requires |rows| == |items|
    requires forall i :: 0 <= i < |items| ==> rows[i] == ContactOf(items[i].fields)
    ensures rows == Contacts(items)
  {
  }
}
