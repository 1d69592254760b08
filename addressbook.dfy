/**
  The address book of projects/AddressBook/addressbook.java: an ordered list of
  contacts that the menu appends to, searches by name and deletes from by name.
  Names are compared with `equalsIgnoreCase` against the trimmed query.
 */
module Address {
  import opened Wrappers
  import opened Text

  /** A `ContactAddress`: four strings set once by the constructor and only read afterwards. */
  class ContactAddress {
    const name: string
    const address: string
    const phone: string
    const email: string

    /** The getters give back exactly what the constructor was passed. */
    constructor(name: string, address: string, phone: string, email: string)
      ensures this.name == name && this.address == address
      ensures this.phone == phone && this.email == email
    {
      this.name := name;
      this.address := address;
      this.phone := phone;
      this.email := email;
    }
  }

  /**
    The test both search and delete apply to each contact: the contact's name and the
    query have the same lower-case form, so in particular the same length.
   */
  predicate NameMatches(c: ContactAddress, query: string)
    ensures NameMatches(c, query) <==> Lower(c.name) == Lower(query)
    ensures NameMatches(c, query) ==> |c.name| == |query|
  {
    EqualsIgnoreCase(c.name, query)
  }

  /** The position of the first contact, in list order, whose name matches the query. */
  function FirstMatch(contacts: seq<ContactAddress>, query: string): (r: Option<nat>)
    ensures r.None? <==> forall j :: 0 <= j < |contacts| ==> !NameMatches(contacts[j], query)
    ensures r.Some? ==> r.value < |contacts| && NameMatches(contacts[r.value], query)
    ensures r.Some? ==> forall j :: 0 <= j < r.value ==> !NameMatches(contacts[j], query)
  {
    if contacts == [] then None
    else if NameMatches(contacts[0], query) then Some(0)
    else match FirstMatch(contacts[1..], query)
      case None => None
      case Some(k) => Some(k + 1)
  }

  /**
    The list once the first matching contact, if any, is taken out. The contacts that
    stay keep their order: those before the match keep their positions, those after
    it move one place down. Without a match the list is unchanged.
   */
  function RemoveFirstMatch(contacts: seq<ContactAddress>, query: string): (r: seq<ContactAddress>)
    ensures FirstMatch(contacts, query).None? ==> r == contacts
    ensures FirstMatch(contacts, query).Some? ==>
      var k := FirstMatch(contacts, query).value;
      && |r| == |contacts| - 1
      && (forall j :: 0 <= j < k ==> r[j] == contacts[j])
      && (forall j :: k <= j < |r| ==> r[j] == contacts[j + 1])
  {
    match FirstMatch(contacts, query)
    case None => contacts
    case Some(k) => contacts[..k] + contacts[k + 1..]
  }

  /** How many contacts in the list match the query. */
  function CountMatches(contacts: seq<ContactAddress>, query: string): nat
  {
    if contacts == [] then 0
    else (if NameMatches(contacts[0], query) then 1 else 0) + CountMatches(contacts[1..], query)
  }

  lemma {:induction false} CountMatchesAppend(a: seq<ContactAddress>, b: seq<ContactAddress>, query: string)
    ensures CountMatches(a + b, query) == CountMatches(a, query) + CountMatches(b, query)
  {
    if a == [] {
      assert a + b == b;
    } else {
      assert (a + b)[1..] == a[1..] + b;
      CountMatchesAppend(a[1..], b, query);
    }
  }

  lemma {:induction false} CountMatchesNone(a: seq<ContactAddress>, query: string)
    requires forall j :: 0 <= j < |a| ==> !NameMatches(a[j], query)
    ensures CountMatches(a, query) == 0
  {
    if a != [] {
      CountMatchesNone(a[1..], query);
    }
  }

  /**
    Deleting removes exactly one matching contact: when there is a match, one match
    fewer remains, so any later contact with the same name is still in the list.
   */
  lemma RemoveFirstMatchRemovesOne(contacts: seq<ContactAddress>, query: string)
    requires FirstMatch(contacts, query).Some?
    ensures CountMatches(RemoveFirstMatch(contacts, query), query) == CountMatches(contacts, query) - 1
  {
    var k := FirstMatch(contacts, query).value;
    var before, after := contacts[..k], contacts[k + 1..];
    assert contacts == before + ([contacts[k]] + after);
    CountMatchesAppend(before, [contacts[k]] + after, query);
    CountMatchesAppend(before, after, query);
    CountMatchesNone(before, query);
    assert CountMatches([contacts[k]] + after, query) == 1 + CountMatches(after, query) by {
      assert ([contacts[k]] + after)[1..] == after;
    }
  }

  /** The static `contacts` list the menu works on. */
  class AddressBook {
    var contacts: seq<ContactAddress>

    constructor()
      ensures contacts == []
    {
      contacts := [];
    }

    /** Add Contact: every line read is trimmed, and the new contact goes at the end. */
    method AddContact(nameLine: string, addressLine: string, phoneLine: string, emailLine: string)
      returns (c: ContactAddress)
      modifies this
      ensures fresh(c)
      ensures c.name == Trim(nameLine) && c.address == Trim(addressLine)
      ensures c.phone == Trim(phoneLine) && c.email == Trim(emailLine)
      ensures contacts == old(contacts) + [c]
    {
      c := new ContactAddress(Trim(nameLine), Trim(addressLine), Trim(phoneLine), Trim(emailLine));
      contacts := contacts + [c];
    }

    /**
      Search Contact: walks the list in order and stops at the first contact whose
      name equals the trimmed query ignoring case; reports nothing when none does.
     */
    method SearchContact(queryLine: string) returns (found: Option<ContactAddress>)
      ensures found.None? <==> forall j :: 0 <= j < |contacts| ==> !NameMatches(contacts[j], Trim(queryLine))
      ensures FirstMatch(contacts, Trim(queryLine)).Some? ==>
        found == Some(contacts[FirstMatch(contacts, Trim(queryLine)).value])
    {
      var name := Trim(queryLine);
      found := None;
      var i := 0;
      while i < |contacts|
        invariant 0 <= i <= |contacts|
        invariant forall j :: 0 <= j < i ==> !NameMatches(contacts[j], name)
      {
        if NameMatches(contacts[i], name) {
          found := Some(contacts[i]);
          break;
        }
        i := i + 1;
      }
    }

    /**
      Delete Contact: walks the list in order and removes the first contact whose name
      equals the trimmed query ignoring case, then stops; without a match nothing changes.
     */
    method DeleteContact(queryLine: string) returns (found: bool)
      modifies this
      ensures found <==> exists j :: 0 <= j < |old(contacts)| && NameMatches(old(contacts)[j], Trim(queryLine))
      ensures contacts == RemoveFirstMatch(old(contacts), Trim(queryLine))
    {
      var name := Trim(queryLine);
      found := false;
      var i := 0;
      while i < |contacts|
        invariant 0 <= i <= |contacts|
        invariant contacts == old(contacts)
        invariant forall j :: 0 <= j < i ==> !NameMatches(contacts[j], name)
      {
        if NameMatches(contacts[i], name) {
          contacts := contacts[..i] + contacts[i + 1..];
          found := true;
          break;
        }
        i := i + 1;
      }
    }
  }
}
