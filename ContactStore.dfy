/**
 * The demo API's in-memory contact list: a module-level array that the
 * handlers search with `find`/`findIndex` and change with `push`, indexed
 * assignment and `splice`. A contact is a JSON object, an id parameter the
 * result of `parseInt` (`None` for NaN).
 */
module ContactStore {
  import opened Wrappers
  import opened Json

  type Contact = map<string, Json>

  /** `c[key]`, `undefined` when absent. */
  function Get(c: Contact, key: string): Json {
    if key in c then c[key] else Undefined
  }

  /** `c.id === parseInt(param)`: NaN matches nothing, and neither does a string id. */
  predicate IdMatches(c: Contact, id: Option<int>) {
    id.Some? && StrictEquals(Get(c, "id"), Num(id.value))
  }

  /** `findIndex`: the first matching position, or -1. */
  function FirstIndex(contacts: seq<Contact>, id: Option<int>): (r: int)
    ensures -1 <= r < |contacts|
    ensures r == -1 <==> forall k :: 0 <= k < |contacts| ==> !IdMatches(contacts[k], id)
    ensures r >= 0 ==> IdMatches(contacts[r], id) && forall k :: 0 <= k < r ==> !IdMatches(contacts[k], id)
    decreases |contacts|
  {
    if contacts == [] then -1
    else if IdMatches(contacts[0], id) then 0
    else
      var r := FirstIndex(contacts[1..], id);
      if r == -1 then -1 else r + 1
  }

  /** The object `POST /contacts` builds: the next id, then the body's own fields, which win. */
  function NewContact(contacts: seq<Contact>, body: Contact): (c: Contact)
    ensures "id" in c && ("id" !in body ==> c["id"] == Num(|contacts| + 1))
    ensures forall k :: k in body ==> k in c && c[k] == body[k]
  {
    map["id" := Num(|contacts| + 1)] + body
  }

  /** `{ ...contact, ...body }`. */
  function Merged(contact: Contact, body: Contact): (c: Contact)
    ensures forall k :: k in c <==> k in contact || k in body
    ensures forall k :: k in body ==> c[k] == body[k]
    ensures forall k :: k in contact && k !in body ==> c[k] == contact[k]
  {
    contact + body
  }

  /** `splice(index, 1)`. */
  function Removed(contacts: seq<Contact>, index: nat): (r: seq<Contact>)
    requires index < |contacts|
    ensures |r| == |contacts| - 1
    ensures forall k :: 0 <= k < index ==> r[k] == contacts[k]
    ensures forall k :: index <= k < |r| ==> r[k] == contacts[k + 1]
  {
    contacts[..index] + contacts[index + 1..]
  }

  /** The three contacts the list starts with. */
  function Seed(): seq<Contact> {
    [ map["id" := Num(1), "name" := Str("John Doe"), "email" := Str("john@example.com"),
          "company" := Str("Acme Corp"), "phone" := Str("+1-555-0100")],
      map["id" := Num(2), "name" := Str("Jane Smith"), "email" := Str("jane@example.com"),
          "company" := Str("Tech Inc"), "phone" := Str("+1-555-0200")],
      map["id" := Num(3), "name" := Str("Bob Johnson"), "email" := Str("bob@example.com"),
          "company" := Str("StartCo"), "phone" := Str("+1-555-0300")] ]
  }

  /** Ids numbered from 1 in list order, as the seed and every create on an untouched list leave them. */
  predicate Numbered(contacts: seq<Contact>) {
    forall k :: 0 <= k < |contacts| ==> Get(contacts[k], "id") == Num(k + 1)
  }

  /** Creating without an id on a numbered list keeps it numbered. */
  lemma CreateKeepsNumbering(contacts: seq<Contact>, body: Contact)
    requires Numbered(contacts) && "id" !in body
    ensures Numbered(contacts + [NewContact(contacts, body)])
  {
    var after := contacts + [NewContact(contacts, body)];
    forall k | 0 <= k < |after|
      ensures Get(after[k], "id") == Num(k + 1)
    {
      if k < |contacts| {
        assert after[k] == contacts[k];
      }
    }
  }

  /**
   * Ids come from the length, so deleting any contact but the last and then
   * creating one hands out the id the last contact already has.
   */
  lemma CreateAfterDeleteReusesId(contacts: seq<Contact>, index: nat, body: Contact)
    requires Numbered(contacts) && index < |contacts| - 1 && "id" !in body
    ensures var after := Removed(contacts, index);
      Get(NewContact(after, body), "id") == Get(after[|after| - 1], "id")
  {
    var after := Removed(contacts, index);
    assert after[|after| - 1] == contacts[|contacts| - 1];
  }

  /** What a company contributes to the `Set`: a primitive by value; an object is a reference of its own contact. */
  datatype CompanyKey = ByValue(v: Json) | ByReference(position: nat)

  function KeyOf(contacts: seq<Contact>, k: nat): CompanyKey
    requires k < |contacts|
  {
    var v := Get(contacts[k], "company");
    if IsObject(v) then ByReference(k) else ByValue(v)
  }

  /** `new Set(contacts.slice(0, n).map(c => c.company))`. */
  function Companies(contacts: seq<Contact>, n: nat): (s: set<CompanyKey>)
    requires n <= |contacts|
    ensures forall key :: key in s <==> exists k :: 0 <= k < n && KeyOf(contacts, k) == key
  {
    if n == 0 then {} else Companies(contacts, n - 1) + {KeyOf(contacts, n - 1)}
  }

  /** There are never more companies than contacts. */
  lemma {:induction false} CompaniesAtMostContacts(contacts: seq<Contact>, n: nat)
    requires n <= |contacts|
    ensures |Companies(contacts, n)| <= n
  {
    if n > 0 {
      CompaniesAtMostContacts(contacts, n - 1);
    }
  }

  /** Contacts that all name the same company, as a string, count as one. */
  lemma {:induction false} SharedCompanyCountsOnce(contacts: seq<Contact>, n: nat, name: string)
    requires 0 < n <= |contacts|
    requires forall k :: 0 <= k < n ==> Get(contacts[k], "company") == Str(name)
    ensures Companies(contacts, n) == {ByValue(Str(name))}
  {
    if n > 1 {
      SharedCompanyCountsOnce(contacts, n - 1, name);
    }
  }

  datatype Stats = Stats(totalContacts: nat, companies: nat, recentActivity: nat, deadlines: nat)

  class Store {
    var contacts: seq<Contact>

    constructor ()
      ensures contacts == Seed()
    {
      contacts := Seed();
    }

    /** `contacts.findIndex(c => c.id === id)`. */
    method FindIndex(id: Option<int>) returns (index: int)
      ensures index == FirstIndex(contacts, id)
      ensures index == -1 <==> forall k :: 0 <= k < |contacts| ==> !IdMatches(contacts[k], id)
      ensures index >= 0 ==> 0 <= index < |contacts| && IdMatches(contacts[index], id)
    {
      index := 0;
      while index < |contacts|
        invariant 0 <= index <= |contacts|
        invariant forall k :: 0 <= k < index ==> !IdMatches(contacts[k], id)
      {
        if IdMatches(contacts[index], id) {
          return;
        }
        index := index + 1;
      }
      index := -1;
    }

    /** `GET /contacts/:id`: the first contact with that id, or not found. */
    method Find(id: Option<int>) returns (r: Option<Contact>)
      ensures r.None? <==> forall k :: 0 <= k < |contacts| ==> !IdMatches(contacts[k], id)
      ensures r.Some? ==> r.value == contacts[FirstIndex(contacts, id)]
    {
      var index := FindIndex(id);
      if index == -1 {
        return None;
      }
      return Some(contacts[index]);
    }

    /** `POST /contacts`: appends the new contact and returns it. */
    method Create(body: Contact) returns (created: Contact)
      modifies this
      ensures created == NewContact(old(contacts), body)
      ensures contacts == old(contacts) + [created]
    {
      created := map["id" := Num(|contacts| + 1)] + body;
      contacts := contacts + [created];
    }

    /** `PUT /contacts/:id`: merges the body over the first match, in place. */
    method Update(id: Option<int>, body: Contact) returns (r: Option<Contact>)
      modifies this
      ensures r.None? <==> FirstIndex(old(contacts), id) == -1
      ensures r.None? ==> contacts == old(contacts)
      ensures r.Some? ==>
        var index := FirstIndex(old(contacts), id);
        r.value == Merged(old(contacts)[index], body) && contacts == old(contacts)[index := r.value]
    {
      var index := FindIndex(id);
      if index == -1 {
        return None;
      }
      contacts := contacts[index := contacts[index] + body];
      return Some(contacts[index]);
    }

    /** `DELETE /contacts/:id`: removes the first match; reports whether there was one. */
    method Delete(id: Option<int>) returns (deleted: bool)
      modifies this
      ensures deleted <==> FirstIndex(old(contacts), id) != -1
      ensures !deleted ==> contacts == old(contacts)
      ensures deleted ==> contacts == Removed(old(contacts), FirstIndex(old(contacts), id))
    {
      var index := FindIndex(id);
      if index == -1 {
        return false;
      }
      contacts := contacts[..index] + contacts[index + 1..];
      return true;
    }

    /** `GET /stats`. */
    method GetStats() returns (s: Stats)
      ensures s.totalContacts == |contacts|
      ensures s.companies == |Companies(contacts, |contacts|)| <= s.totalContacts
      ensures s.recentActivity == 15 && s.deadlines == 3
    {
      var seen: set<CompanyKey> := {};
      for k := 0 to |contacts|
        invariant seen == Companies(contacts, k)
      {
        seen := seen + {KeyOf(contacts, k)};
      }
      CompaniesAtMostContacts(contacts, |contacts|);
      s := Stats(|contacts|, |seen|, 15, 3);
    }
  }

  /** The seeded list is numbered 1, 2, 3. */
  lemma SeedNumbered()
    ensures |Seed()| == 3 && Numbered(Seed())
  {
    var s := Seed();
    assert Get(s[0], "id") == Num(1);
    assert Get(s[1], "id") == Num(2);
    assert Get(s[2], "id") == Num(3);
  }
}
