/** The rider authorisation list: a collection of documents, each holding a
    lower-cased email, that gates access to the rider dashboard. Membership
    is by exact match on the lower-cased email. Rejections of `getDocs` are
    an input (`queryFails`) where the service catches them. */
module RiderAuth {
  import opened Wrappers
  import opened Text

  /** One document of the authorisation collection. `createdAt` is an ISO
      date string supplied by the caller's clock. */
  datatype AuthorizedRider = AuthorizedRider(email: string, name: string, createdAt: string)

  type Authorizations = map<string, AuthorizedRider>

  datatype AuthError =
    | NotConfigured       // "Firebase not configured"
    | AlreadyAuthorized   // "Rider email already authorized"
    | NotAuthorized       // "Rider email not found"
    | DeleteUnavailable   // `doc.ref.delete` is not a function (see RemoveAsWritten)

  /** Every stored email is lower-case. The only write path,
      `AddAuthorizedRider`, keeps this so. */
  ghost predicate AllLower(docs: Authorizations) {
    forall k :: k in docs ==> IsLower(docs[k].email)
  }

  /** The keys `where('email', '==', email.toLowerCase())` returns. */
  function Matching(docs: Authorizations, email: string): (r: set<string>)
    ensures forall k :: k in r <==> k in docs && docs[k].email == Lower(email)
  {
    set k | k in docs && docs[k].email == Lower(email)
  }

  /** `isRiderAuthorized(email)`: fails closed. It is false when the store is
      not configured, the email is empty or the query rejects, and otherwise
      true exactly when a stored document holds the lower-cased email. */
  function IsRiderAuthorized(configured: bool, docs: Authorizations, email: string, queryFails: bool): (r: bool)
    ensures r ==> configured && email != "" && !queryFails
    ensures configured && email != "" && !queryFails ==>
      (r <==> exists k :: k in docs && docs[k].email == Lower(email))
  {
    if !configured || email == "" then false
    else if queryFails then false
    else Matching(docs, email) != {}
  }

  /** One entry of `getAuthorizedRiders()`: `{ id: doc.id, ...doc.data() }`. */
  datatype Listed = Listed(id: string, rider: AuthorizedRider)

  /** `getAuthorizedRiders()`: every document with its key, or nothing when
      the store is not configured or the query rejects. The store's order of
      the list is not modelled, so the result is a set. */
  function AuthorizedRiders(configured: bool, docs: Authorizations, queryFails: bool): (r: set<Listed>)
    ensures !configured || queryFails ==> r == {}
    ensures configured && !queryFails ==> forall k :: k in docs ==> Listed(k, docs[k]) in r
    ensures forall l :: l in r ==> l.id in docs && docs[l.id] == l.rider
  {
    if !configured || queryFails then {}
    else set k | k in docs :: Listed(k, docs[k])
  }

  /** The document `addAuthorizedRider(email, name)` adds: the email
      lower-cased, the name or, when it is empty, the email as given. */
  function NewAuthorization(email: string, name: string, createdAt: string): (r: AuthorizedRider)
    ensures IsLower(r.email) && r.email == Lower(email)
    ensures r.name == (if name != "" then name else email)
    ensures r.createdAt == createdAt
  {
    AuthorizedRider(Lower(email), if name != "" then name else email, createdAt)
  }

  /** The collection once every document holding the lower-cased email is
      deleted: exactly the matching keys go, the rest stay as they were. */
  function WithoutEmail(docs: Authorizations, email: string): (r: Authorizations)
    ensures r.Keys == docs.Keys - Matching(docs, email)
    ensures forall k :: k in r ==> r[k] == docs[k]
  {
    map k | k in docs && docs[k].email != Lower(email) :: docs[k]
  }

  /** `removeAuthorizedRider(email)` as the source writes it: after the
      lookup it calls `doc.ref.delete()` on each match, but a
      `DocumentReference` of the modular SDK has no `delete` method (the
      imported `deleteDoc` is never used). The first call throws a TypeError,
      the catch rethrows it, and nothing is deleted. So every call fails. */
  function RemoveAsWritten(configured: bool, docs: Authorizations, email: string): (r: Outcome<AuthError>)
    ensures r.Fail?
    ensures r == Fail(DeleteUnavailable) <==> configured && Matching(docs, email) != {}
  {
    if !configured then Fail(NotConfigured)
    else if Matching(docs, email) == {} then Fail(NotAuthorized)
    else Fail(DeleteUnavailable)
  }

  /** As written, removal never revokes: a listed rider whose removal is
      requested stays authorised, because the collection is left as it was. */
  lemma AsWrittenRemovalNeverRevokes(docs: Authorizations, email: string)
    requires email != "" && Matching(docs, email) != {}
    ensures RemoveAsWritten(true, docs, email) == Fail(DeleteUnavailable)
    ensures IsRiderAuthorized(true, docs, email, false)
  {
    var k :| k in Matching(docs, email);
  }

  /** A concrete case: one authorised rider, removal asked in other casing. */
  lemma AsWrittenRemovalExample()
    ensures var docs := map["a1" := AuthorizedRider("rider@shop.ke", "Rider", "2024-05-01T08:00:00.000Z")];
      && RemoveAsWritten(true, docs, "Rider@Shop.ke") == Fail(DeleteUnavailable)
      && IsRiderAuthorized(true, docs, "Rider@Shop.ke", false)
      && !IsRiderAuthorized(true, WithoutEmail(docs, "Rider@Shop.ke"), "Rider@Shop.ke", false)
  {
    var docs := map["a1" := AuthorizedRider("rider@shop.ke", "Rider", "2024-05-01T08:00:00.000Z")];
    assert Lower("Rider@Shop.ke") == "rider@shop.ke";
    assert "a1" in Matching(docs, "Rider@Shop.ke");
  }

  /** After a successful add, the same address in any casing is authorised. */
  lemma AddedRiderIsAuthorized(docs: Authorizations, newKey: string, email: string, name: string, createdAt: string, probe: string)
    requires email != "" && Lower(probe) == Lower(email)
    ensures IsRiderAuthorized(true, docs[newKey := NewAuthorization(email, name, createdAt)], probe, false)
  {
    var after := docs[newKey := NewAuthorization(email, name, createdAt)];
    assert newKey in after && after[newKey].email == Lower(probe);
  }

  /** After a successful add, adding the same address in any casing fails
      with `AlreadyAuthorized`: the new document matches. */
  lemma SecondAddIsRejected(docs: Authorizations, newKey: string, email: string, name: string, createdAt: string, probe: string)
    requires Lower(probe) == Lower(email)
    ensures newKey in Matching(docs[newKey := NewAuthorization(email, name, createdAt)], probe)
  {
  }

  /** Under the lower-case invariant, every stored rider is authorised under
      its stored email, in any casing of it. */
  lemma {:induction false} StoredRiderIsAuthorized(docs: Authorizations, k: string, probe: string)
    requires AllLower(docs)
    requires k in docs && docs[k].email != ""
    requires Lower(probe) == docs[k].email
    ensures IsRiderAuthorized(true, docs, probe, false)
  {
    LowerOfLower(docs[k].email);
    assert k in Matching(docs, probe);
  }

  /** After the intended removal, no casing of the address is authorised and
      every other address keeps its status. */
  lemma RemovedRiderIsNotAuthorized(docs: Authorizations, email: string, probe: string)
    requires probe != ""
    ensures Lower(probe) == Lower(email) ==> !IsRiderAuthorized(true, WithoutEmail(docs, email), probe, false)
    ensures Lower(probe) != Lower(email) ==>
      IsRiderAuthorized(true, WithoutEmail(docs, email), probe, false) == IsRiderAuthorized(true, docs, probe, false)
  {
    var after := WithoutEmail(docs, email);
    if Lower(probe) != Lower(email) && IsRiderAuthorized(true, docs, probe, false) {
      var k :| k in docs && docs[k].email == Lower(probe);
      assert k in after;
    }
  }

  /** The authorisation collection and the configuration flag. */
  class AuthorizationStore {
    var configured: bool
    var docs: Authorizations

    ghost predicate Valid()
      reads this
    {
      AllLower(docs)
    }

    constructor (configured: bool, docs: Authorizations)
      requires AllLower(docs)
      ensures Valid() && this.configured == configured && this.docs == docs
    {
      this.configured := configured;
      this.docs := docs;
    }

    /** `addAuthorizedRider(email, name)`, with `createdAt` for
        `new Date().toISOString()` and `newKey` for the key the store
        generates; returns the new key. */
    method AddAuthorizedRider(email: string, name: string, createdAt: string, newKey: string)
      returns (r: Result<string, AuthError>)
      requires Valid() && newKey !in docs
      modifies this`docs
      ensures Valid()
      ensures r == (if !configured then Err(NotConfigured)
                    else if Matching(old(docs), email) != {} then Err(AlreadyAuthorized)
                    else Ok(newKey))
      ensures r.Ok? ==> docs == old(docs)[newKey := NewAuthorization(email, name, createdAt)]
      ensures r.Err? ==> docs == old(docs)
    {
      if !configured {
        return Err(NotConfigured);
      }
      if Matching(docs, email) != {} {
        return Err(AlreadyAuthorized);
      }
      docs := docs[newKey := NewAuthorization(email, name, createdAt)];
      r := Ok(newKey);
    }

    /** `removeAuthorizedRider(email)` as intended: delete every document
        holding the lower-cased email, failing when there is none. The source
        as written deletes nothing; see `RemoveAsWritten`. */
    method RemoveAuthorizedRider(email: string) returns (r: Outcome<AuthError>)
      requires Valid()
      modifies this`docs
      ensures Valid()
      ensures r == (if !configured then Fail(NotConfigured)
                    else if Matching(old(docs), email) == {} then Fail(NotAuthorized)
                    else Pass)
      ensures r.Pass? ==> docs == WithoutEmail(old(docs), email)
      ensures r.Fail? ==> docs == old(docs)
    {
      if !configured {
        return Fail(NotConfigured);
      }
      var matches := Matching(docs, email);
      if matches == {} {
        return Fail(NotAuthorized);
      }
      docs := WithoutEmail(docs, email);
      r := Pass;
    }
  }
}
