/**
 The request handlers of the activities API: `get_activities`,
 `signup_for_activity` and `unregister_from_activity`. Each handler runs as
 one atomic step on the shared collection. `Signup` and `Unregister` are that
 step on collection values; the handler methods are proved to perform
 exactly it, and the lemmas state what it guarantees.
 */
module App {
  import opened DocumentStore
  import opened Activities

  /**
   What a handler answers: 200 with a message, 404 (section 15.5.5 of RFC 9110)
   or 400 (section 15.5.1 of RFC 9110), each error with its detail text.
   */
  datatype Response = Ok(message: string) | NotFound(detail: string) | Conflict(detail: string)

  function StatusCode(r: Response): int {
    match r
    case Ok(_) => 200
    case NotFound(_) => 404
    case Conflict(_) => 400
  }

  const ActivityNotFound := "Activity not found"
  const AlreadySignedUp := "Student already signed up for this activity"
  const NotRegistered := "Student not registered for this activity"

  function SignedUpMessage(email: string, activityName: string): string {
    "Signed up " + email + " for " + activityName
  }

  function UnregisteredMessage(email: string, activityName: string): string {
    "Unregistered " + email + " from " + activityName
  }

  /** A handler's answer together with the collection it leaves behind. */
  datatype Step = Step(response: Response, after: Documents)

  /** `signup_for_activity` as one step on the collection's contents. */
  function Signup(c: Documents, activityName: string, email: string): Step {
    match Lookup(c, activityName)
    case None => Step(NotFound(ActivityNotFound), c)
    case Some(activity) =>
      if email in activity.participants then Step(Conflict(AlreadySignedUp), c)
      else Step(Ok(SignedUpMessage(email, activityName)), Updated(c, activityName, Push(email)))
  }

  /** `unregister_from_activity` as one step on the collection's contents. */
  function Unregister(c: Documents, activityName: string, email: string): Step {
    match Lookup(c, activityName)
    case None => Step(NotFound(ActivityNotFound), c)
    case Some(activity) =>
      if email !in activity.participants then Step(Conflict(NotRegistered), c)
      else Step(Ok(UnregisteredMessage(email, activityName)), Updated(c, activityName, Pull(email)))
  }

  /** No activity's participant list holds an email twice. */
  ghost predicate NoDuplicateParticipants(c: Documents) {
    forall k :: k in c ==> NoDuplicates(c[k].participants)
  }

  method SignupForActivity(activities: Collection, activityName: string, email: string) returns (r: Response)
    requires activities.Valid()
    modifies activities
    ensures activities.Valid()
    ensures Step(r, activities.documents) == Signup(old(activities.documents), activityName, email)
  {
    var activity := activities.FindOne(activityName);
    if activity.None? {
      return NotFound(ActivityNotFound);
    }
    if email in activity.value.participants {
      return Conflict(AlreadySignedUp);
    }
    activities.UpdateOne(activityName, Push(email));
    r := Ok(SignedUpMessage(email, activityName));
  }

  method UnregisterFromActivity(activities: Collection, activityName: string, email: string) returns (r: Response)
    requires activities.Valid()
    modifies activities
    ensures activities.Valid()
    ensures Step(r, activities.documents) == Unregister(old(activities.documents), activityName, email)
  {
    var activity := activities.FindOne(activityName);
    if activity.None? {
      return NotFound(ActivityNotFound);
    }
    if email !in activity.value.participants {
      return Conflict(NotRegistered);
    }
    activities.UpdateOne(activityName, Pull(email));
    r := Ok(UnregisteredMessage(email, activityName));
  }

  /**
   `get_activities`, given the cursor `find()` returned: one entry per stored
   activity, holding that document's fields without `_id`, whatever the
   cursor's order.
   */
  function GetActivities(activities: Collection, cursor: seq<Document>): (r: map<string, Activity>)
    reads activities
    requires Enumerates(cursor, activities.documents)
    ensures r.Keys == activities.documents.Keys
    ensures forall n :: n in r ==> r[n] == Project(activities.documents[n])
  {
    CursorListing(cursor, activities.documents);
    ListActivities(cursor)
  }

  // ----- signup -----

  lemma SignupUnknownActivity(c: Documents, activityName: string, email: string)
    requires activityName !in c
    ensures Signup(c, activityName, email) == Step(NotFound(ActivityNotFound), c)
    ensures StatusCode(Signup(c, activityName, email).response) == 404
  {
  }

  lemma SignupAlreadyRegistered(c: Documents, activityName: string, email: string)
    requires activityName in c && email in c[activityName].participants
    ensures Signup(c, activityName, email) == Step(Conflict(AlreadySignedUp), c)
    ensures StatusCode(Signup(c, activityName, email).response) == 400
  {
  }

  /** A successful signup appends the email and changes nothing else. */
  lemma SignupAppends(c: Documents, activityName: string, email: string)
    requires activityName in c && email !in c[activityName].participants
    ensures var s := Signup(c, activityName, email);
      && s.response == Ok("Signed up " + email + " for " + activityName)
      && s.after.Keys == c.Keys
      && s.after[activityName].participants == c[activityName].participants + [email]
      && Project(s.after[activityName]).(participants := []) == Project(c[activityName]).(participants := [])
      && s.after[activityName].id == c[activityName].id
      && (forall n :: n in c && n != activityName ==> s.after[n] == c[n])
  {
  }

  /** Signup succeeds exactly when the activity exists and the email is not yet in it. */
  lemma SignupSucceedsIff(c: Documents, activityName: string, email: string)
    ensures Signup(c, activityName, email).response.Ok?
        <==> activityName in c && email !in c[activityName].participants
    ensures !Signup(c, activityName, email).response.Ok? ==> Signup(c, activityName, email).after == c
  {
  }

  /** `max_participants` is never consulted: a full activity still accepts a signup. */
  lemma SignupIgnoresCapacity(c: Documents, activityName: string, email: string)
    requires activityName in c && email !in c[activityName].participants
    requires |c[activityName].participants| >= c[activityName].maxParticipants
    ensures Signup(c, activityName, email).response.Ok?
    ensures |Signup(c, activityName, email).after[activityName].participants|
         == |c[activityName].participants| + 1
  {
  }

  /** Signing up twice in a row: the second attempt is a conflict and changes nothing. */
  lemma SignupTwiceConflicts(c: Documents, activityName: string, email: string)
    requires Signup(c, activityName, email).response.Ok?
    ensures var once := Signup(c, activityName, email).after;
      Signup(once, activityName, email) == Step(Conflict(AlreadySignedUp), once)
  {
  }

  // ----- unregister -----

  lemma UnregisterUnknownActivity(c: Documents, activityName: string, email: string)
    requires activityName !in c
    ensures Unregister(c, activityName, email) == Step(NotFound(ActivityNotFound), c)
    ensures StatusCode(Unregister(c, activityName, email).response) == 404
  {
  }

  lemma UnregisterNotRegistered(c: Documents, activityName: string, email: string)
    requires activityName in c && email !in c[activityName].participants
    ensures Unregister(c, activityName, email) == Step(Conflict(NotRegistered), c)
    ensures StatusCode(Unregister(c, activityName, email).response) == 400
  {
  }

  /**
   A successful unregister removes every occurrence of the email, keeps the
   other participants (in order, see `PulledConcat`), and changes nothing else.
   */
  lemma UnregisterRemoves(c: Documents, activityName: string, email: string)
    requires activityName in c && email in c[activityName].participants
    ensures var s := Unregister(c, activityName, email);
      && s.response == Ok("Unregistered " + email + " from " + activityName)
      && s.after.Keys == c.Keys
      && s.after[activityName].participants == Pulled(c[activityName].participants, email)
      && email !in s.after[activityName].participants
      && (forall y :: y in s.after[activityName].participants
                  <==> y in c[activityName].participants && y != email)
      && Project(s.after[activityName]).(participants := []) == Project(c[activityName]).(participants := [])
      && s.after[activityName].id == c[activityName].id
      && (forall n :: n in c && n != activityName ==> s.after[n] == c[n])
  {
  }

  /**
   With no duplicates, unregistering the participant at index `i` deletes
   just that entry: the list shrinks by one and the others keep their order.
   */
  lemma UnregisterDeletesOneEntry(c: Documents, activityName: string, email: string, i: nat)
    requires NoDuplicateParticipants(c)
    requires activityName in c && i < |c[activityName].participants|
    requires c[activityName].participants[i] == email
    ensures var p := c[activityName].participants;
      Unregister(c, activityName, email).after[activityName].participants == p[..i] + p[i + 1..]
  {
    PulledAtIndex(c[activityName].participants, i, email);
  }

  /** Unregister succeeds exactly when the activity exists and the email is in it. */
  lemma UnregisterSucceedsIff(c: Documents, activityName: string, email: string)
    ensures Unregister(c, activityName, email).response.Ok?
        <==> activityName in c && email in c[activityName].participants
    ensures !Unregister(c, activityName, email).response.Ok? ==> Unregister(c, activityName, email).after == c
  {
  }

  /** Unregistering twice in a row: the second attempt is a conflict and changes nothing. */
  lemma UnregisterTwiceConflicts(c: Documents, activityName: string, email: string)
    requires Unregister(c, activityName, email).response.Ok?
    ensures var once := Unregister(c, activityName, email).after;
      Unregister(once, activityName, email) == Step(Conflict(NotRegistered), once)
  {
  }

  // ----- invariant and round trip -----

  lemma {:induction false} SignupPreservesNoDuplicates(c: Documents, activityName: string, email: string)
    requires NoDuplicateParticipants(c)
    ensures NoDuplicateParticipants(Signup(c, activityName, email).after)
  {
    if activityName in c && email !in c[activityName].participants {
      NoDuplicatesPush(c[activityName].participants, email);
    }
  }

  lemma {:induction false} UnregisterPreservesNoDuplicates(c: Documents, activityName: string, email: string)
    requires NoDuplicateParticipants(c)
    ensures NoDuplicateParticipants(Unregister(c, activityName, email).after)
  {
    if activityName in c {
      NoDuplicatesPull(c[activityName].participants, email);
    }
  }

  /** The seeded collection already satisfies the invariant. */
  lemma SeedHasNoDuplicates()
    ensures KeyedById(SeedDocuments()) && NoDuplicateParticipants(SeedDocuments())
  {
    SeedFacts();
  }

  /**
   Signing up an unregistered email and then unregistering it succeeds both
   times and restores the collection exactly.
   */
  lemma SignupThenUnregisterRestores(c: Documents, activityName: string, email: string)
    requires activityName in c && email !in c[activityName].participants
    ensures var once := Signup(c, activityName, email).after;
      Unregister(once, activityName, email) == Step(Ok(UnregisteredMessage(email, activityName)), c)
  {
    var p := c[activityName].participants;
    PulledAfterPush(p, email);
    var once := Signup(c, activityName, email).after;
    assert once[activityName].participants == p + [email];
    assert Updated(once, activityName, Pull(email)) == c;
  }

  /** A successful signup or unregister is visible in the next listing. */
  lemma ListingAfterSignup(c: Documents, activityName: string, email: string)
    requires Signup(c, activityName, email).response.Ok?
    ensures var listing := Projection(Signup(c, activityName, email).after);
      activityName in listing && listing[activityName].participants == c[activityName].participants + [email]
  {
  }

  lemma ListingAfterUnregister(c: Documents, activityName: string, email: string)
    requires Unregister(c, activityName, email).response.Ok?
    ensures var listing := Projection(Unregister(c, activityName, email).after);
      activityName in listing && email !in listing[activityName].participants
  {
  }

  // ----- the seeded catalog -----

  /** The Chess Club entry of the seeded collection. */
  lemma SeedChessClub()
    ensures "Chess Club" in SeedDocuments()
    ensures SeedDocuments()["Chess Club"].participants
         == ["michael@mergington.edu", "daniel@mergington.edu", "olivia@mergington.edu"]
  {
  }

  lemma SeedSignupNewStudent()
    ensures var s := Signup(SeedDocuments(), "Chess Club", "new@mergington.edu");
      && StatusCode(s.response) == 200
      && s.after["Chess Club"].participants
         == ["michael@mergington.edu", "daniel@mergington.edu", "olivia@mergington.edu", "new@mergington.edu"]
  {
    SeedChessClub();
    SignupAppends(SeedDocuments(), "Chess Club", "new@mergington.edu");
  }

  lemma SeedSignupExistingStudent()
    ensures Signup(SeedDocuments(), "Chess Club", "michael@mergington.edu")
         == Step(Conflict(AlreadySignedUp), SeedDocuments())
  {
  }

  lemma SeedUnregisterStudent()
    ensures var s := Unregister(SeedDocuments(), "Chess Club", "olivia@mergington.edu");
      && s.response.Ok?
      && s.after["Chess Club"].participants == ["michael@mergington.edu", "daniel@mergington.edu"]
  {
  }

  lemma SeedUnknownActivity()
    ensures Signup(SeedDocuments(), "Nonexistent Club", "x@mergington.edu").response.NotFound?
  {
  }
}
