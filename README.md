# Mergington High School activities API: the registration store

This project models the activity registration store behind the Mergington
High School API, and proves properties of that model. The store is a MongoDB
collection of activity documents keyed by activity name (`_id`). Each document
holds a description, a schedule, a `max_participants` number and an ordered list
of participant emails. Three request handlers work on it:

- `signup_for_activity` looks the activity up. It answers 404 if the activity is
  unknown and 400 if the email is already listed. Otherwise it `$push`es the email.
- `unregister_from_activity` looks the activity up. It answers 404 if the activity
  is unknown and 400 if the email is not listed. Otherwise it `$pull`s the email.
- `get_activities` turns the documents returned by `find()` into a map from
  name to record, dropping the `_id` field.

The model has three modules:

- `DocumentStore` (`document_store.dfy`) holds the document collection. Its
  contents are a `map` from `_id` to `Document`. `Lookup` is `find_one`;
  `Updated` and `Apply` give `update_one` with `$push` (append) or `$pull`
  (remove every equal element, keeping the order of the rest).
  `Collection` is the shared collection object. It is a class with a `documents`
  field, a `FindOne` method that only reads and an `UpdateOne` method that
  changes the field in place. The lemmas about `$pull` and the no-duplicates
  property live here too.
- `Activities` (`activities.dfy`) holds the record clients see (`Activity`, a
  document without `_id`). It also holds the dictionary comprehension of
  `get_activities` over a `find()` cursor (`ListActivities`) and the seed
  catalog `InitialActivities` with its stored form `SeedDocuments`.
- `App` (`app.dfy`) holds the handlers. `Signup` and `Unregister` give each
  handler as one step on collection values: a `Response` (`Ok` with the message,
  `NotFound` = HTTP 404, `Conflict` = HTTP 400, each with the source's detail
  text) and the collection afterwards. The methods `SignupForActivity` and
  `UnregisterFromActivity` follow the source statement by statement. Each one
  calls `FindOne`, checks membership, then calls `UpdateOne`. Each is proved to
  perform exactly that step. The lemmas state what the step guarantees.

The order in which `find()` yields documents is not specified, so the cursor is
a parameter of `GetActivities`. Its precondition `Enumerates` says what the
driver guarantees: each element is a stored document, and every stored document
appears. `CursorListing` proves that the model's listing, a `map`, is the same
for every such order.

One might expect the store to keep participants as a set, to accept only
non-empty emails, and to make each signup or unregister a single atomic
conditional update. The code does none of these, and the model follows the code:

- Participants are an ordered Python list, appended to by `$push` and filtered by
  `$pull`. Nothing in the list type rules out a duplicate; that no activity ever
  holds one is proved as an invariant (`NoDuplicateParticipants`).
- The `email` query parameter is used as given. Any string, the empty one
  included, can be signed up.
- Each handler first reads with `find_one` and then writes with an unconditional
  `update_one`. The model treats each handler as one atomic step (see "Left out").

## Model

| member | source | states |
|---|---|---|
| `App.Signup` | src/app.py:121-135 | no contract of its own; the signup step: look the activity up, answer 404 if missing, 400 if the email is listed, otherwise `$push` it and answer the message. Characterised by `SignupUnknownActivity`, `SignupAlreadyRegistered`, `SignupAppends`, `SignupSucceedsIff`, `SignupIgnoresCapacity`, `SignupTwiceConflicts`, `SignupPreservesNoDuplicates` |
| `App.Unregister` | src/app.py:137-151 | no contract of its own; the unregister step: look the activity up, answer 404 if missing, 400 if the email is not listed, otherwise `$pull` it and answer the message. Characterised by `UnregisterUnknownActivity`, `UnregisterNotRegistered`, `UnregisterRemoves`, `UnregisterDeletesOneEntry`, `UnregisterSucceedsIff`, `UnregisterTwiceConflicts`, `UnregisterPreservesNoDuplicates` |
| `App.StatusCode` | src/app.py:126-145 | no contract of its own; 200 for a success, 404 for an unknown activity, 400 for a refused transition. Used by the 404/400 clauses of `SignupUnknownActivity`, `SignupAlreadyRegistered`, `UnregisterUnknownActivity`, `UnregisterNotRegistered` |
| `App.SignedUpMessage` | src/app.py:135 | no contract of its own; the text "Signed up {email} for {activity}". Characterised by `SignupAppends` |
| `App.UnregisteredMessage` | src/app.py:151 | no contract of its own; the text "Unregistered {email} from {activity}". Characterised by `UnregisterRemoves` and `SignupThenUnregisterRestores` |
| `DocumentStore.Lookup` | src/app.py:124 | no contract of its own; `find_one({"_id": name})` on collection values. Characterised by `DocumentStore.Collection.FindOne` and the `...UnknownActivity` lemmas |
| `Activities.Project` | src/app.py:118 | no contract of its own; the inner comprehension dropping `_id`. Characterised by `ProjectWithId` |
| `Activities.WithId` | src/init_db.py:14 | no contract of its own; the stored form `{"_id": name, **details}`. Characterised by `ProjectWithId` |
| `Activities.ListActivities` | src/app.py:117-119 | no contract of its own; the outer comprehension over the `find()` cursor, a later `_id` overwriting an earlier one. Characterised by `ListActivitiesOfStored` and `CursorListing` |
| `Activities.SeedDocuments` | src/app.py:30-107 | no contract of its own; each `initial_activities` entry stored under its name as `_id`, as src/init_db.py:13-14 does. Characterised by `SeedFacts` and `SeedHasNoDuplicates` |
| `DocumentStore.Pulled` | src/app.py:147-150 | `$pull` leaves exactly the elements different from the pulled email, and never lengthens the list |
| `DocumentStore.Apply` | src/app.py:131-150 | an update touches only `participants`: `$push` appends the email at the end, `$pull` applies `Pulled`; `_id`, description, schedule and capacity are kept |
| `DocumentStore.Updated` | src/app.py:131-134 | `update_one` by `_id` keeps the set of names, changes only the matching document (by `Apply`), is a no-op when nothing matches, and keeps every document under its own `_id` |
| `DocumentStore.Collection.constructor` | src/app.py:25-27 | the collection handle starts with the given contents, keyed by `_id` |
| `DocumentStore.Collection.FindOne` | src/app.py:124 | `find_one({"_id": name})` finds a document exactly when the name is stored; the found document is the stored one and its `_id` is the name |
| `DocumentStore.Collection.UpdateOne` | src/app.py:131-134 | the collection afterwards is `Updated` of the old contents, still keyed by `_id` |
| `DocumentStore.NoDuplicatesPush` | src/app.py:128-134 | pushing an email that is absent keeps the list free of duplicates |
| `DocumentStore.NoDuplicatesPull` | src/app.py:147-150 | pulling any email keeps a duplicate-free list duplicate-free |
| `DocumentStore.PulledAbsent` | src/app.py:147-150 | pulling an email that is not listed leaves the list unchanged |
| `DocumentStore.PulledConcat` | src/app.py:147-150 | `$pull` acts element by element: it distributes over concatenation, so the surviving participants keep their order |
| `DocumentStore.PulledAfterPush` | src/app.py:131-150 | pulling an email just pushed onto a list that did not contain it gives back the original list |
| `DocumentStore.PulledAtIndex` | src/app.py:144-150 | in a duplicate-free list, pulling the email at index i removes just that entry (`s[..i] + s[i+1..]`) and shortens the list by one |
| `Activities.ProjectWithId` | src/init_db.py:13-14 | storing a catalog entry under its name and dropping `_id` again gives the entry back; a document is its `_id` plus its projection |
| `Activities.ListActivitiesOfStored` | src/app.py:117-119 | for a cursor of stored documents, the comprehension's keys are exactly the cursor's `_id`s, each mapped to that stored document's fields without `_id` |
| `Activities.CursorListing` | src/app.py:117-119 | for any cursor that enumerates the collection, in any order, the listing equals the collection's projection |
| `Activities.SeedFacts` | src/app.py:30-107 | the seeded collection has exactly the catalog's names, is keyed by `_id`, lists the catalog back unchanged, has no duplicate participant, and every capacity is positive |
| `App.SignupForActivity` | src/app.py:121-135 | the handler's response and the collection afterwards are exactly the `Signup` step of the old contents; the collection stays keyed by `_id` |
| `App.UnregisterFromActivity` | src/app.py:137-151 | the handler's response and the collection afterwards are exactly the `Unregister` step of the old contents; the collection stays keyed by `_id` |
| `App.GetActivities` | src/app.py:115-119 | the listing has one entry per stored activity name, holding that document's four fields without `_id`, whatever the cursor's order |
| `App.SignupUnknownActivity` | src/app.py:124-126 | signup for an unknown activity answers 404 "Activity not found" and leaves the collection unchanged |
| `App.SignupAlreadyRegistered` | src/app.py:128-129 | signup of an email already listed answers 400 "Student already signed up for this activity" and leaves the collection unchanged |
| `App.SignupAppends` | src/app.py:131-135 | a successful signup answers "Signed up {email} for {activity}", appends the email at the end of that activity's participants, keeps its other fields and `_id`, and leaves every other activity and the set of names unchanged |
| `App.SignupSucceedsIff` | src/app.py:124-135 | signup succeeds if and only if the activity exists and the email is not listed; every failure leaves the collection unchanged |
| `App.SignupIgnoresCapacity` | src/app.py:128-134 | signup succeeds even when the activity already has `max_participants` or more participants, and the list grows by one |
| `App.SignupTwiceConflicts` | src/app.py:128-135 | repeating a successful signup answers 400 "already signed up" and changes nothing |
| `App.UnregisterUnknownActivity` | src/app.py:140-142 | unregister from an unknown activity answers 404 "Activity not found" and leaves the collection unchanged |
| `App.UnregisterNotRegistered` | src/app.py:144-145 | unregister of an email that is not listed answers 400 "Student not registered for this activity" and leaves the collection unchanged |
| `App.UnregisterRemoves` | src/app.py:147-151 | a successful unregister answers "Unregistered {email} from {activity}", `$pull`s the email so that no occurrence remains and every other participant stays, keeps the other fields and `_id`, and leaves every other activity unchanged |
| `App.UnregisterDeletesOneEntry` | src/app.py:144-150 | under the no-duplicates invariant, unregistering the participant at index i deletes exactly that entry and keeps the rest in order |
| `App.UnregisterSucceedsIff` | src/app.py:140-151 | unregister succeeds if and only if the activity exists and the email is listed; every failure leaves the collection unchanged |
| `App.UnregisterTwiceConflicts` | src/app.py:144-150 | repeating a successful unregister answers 400 "not registered" and changes nothing |
| `App.SignupPreservesNoDuplicates` | src/app.py:128-134 | signup, whatever its outcome, keeps every participant list free of duplicates |
| `App.UnregisterPreservesNoDuplicates` | src/app.py:144-150 | unregister, whatever its outcome, keeps every participant list free of duplicates |
| `App.SeedHasNoDuplicates` | src/app.py:30-107 | the seeded collection is keyed by `_id` and satisfies the no-duplicates invariant |
| `App.SignupThenUnregisterRestores` | src/app.py:128-150 | for an email not listed, signup followed by unregister succeeds and restores the whole collection exactly |
| `App.ListingAfterSignup` | src/app.py:115-135 | after a successful signup the listing shows the activity with the email appended |
| `App.ListingAfterUnregister` | src/app.py:115-151 | after a successful unregister the listing shows the activity without the email |
| `App.SeedChessClub` | src/app.py:31-36 | the seeded Chess Club has participants michael, daniel and olivia |
| `App.SeedSignupNewStudent` | src/app.py:121-135 | on the seed, signing up new@mergington.edu for Chess Club answers 200 and leaves four participants, the new one last |
| `App.SeedSignupExistingStudent` | src/app.py:128-129 | on the seed, signing up michael@mergington.edu for Chess Club is a conflict and changes nothing |
| `App.SeedUnregisterStudent` | src/app.py:137-151 | on the seed, unregistering olivia@mergington.edu from Chess Club succeeds and leaves michael and daniel in order |
| `App.SeedUnknownActivity` | src/app.py:124-126 | on the seed, signup for "Nonexistent Club" answers 404 |

## Left out

- FastAPI setup, the static file mount and the root redirect (src/app.py:16-22, 110-112) are left out. They are framework and routing code with no logic of their own.
- The MongoDB connection (src/app.py:25-27) is left out. It is network I/O. The collection becomes an in-memory map in the `Collection` class.
- src/init_db.py is left out. It is a one-off script of driver calls (`delete_many`, one `insert_one` per catalog entry, `print`). Its effect is the model's initial state `SeedDocuments`: each `initial_activities` entry stored under its name as `_id`.
- Concurrency is left out. The source reads with `find_one` and then writes with an unconditional `update_one`. Two concurrent signups for the same email can both pass the check and push twice. Each handler is modelled as one atomic sequential step, so the no-duplicates invariant is proved only for sequential runs.
- HTTP plumbing is left out: `HTTPException` objects, JSON serialisation and query-parameter parsing. Only the outcome is kept: `Ok` with the message, or `NotFound`/`Conflict` with the detail text and status code.
- Persistence failures are not modelled. If the database is unreachable or a write fails, the driver raises an exception the handlers do not catch, and the client sees a 5xx error. The model has no such outcome: every handler answers `Ok`, `NotFound` or `Conflict`.
- Documents have exactly the four fields plus `_id`. MongoDB's schema-free documents, which could hold other fields or lack `participants`, are not modelled.
- GetActivities: returns a `map`, so the key order of the JSON object, which follows the order `find()` yields the documents in (src/app.py:117-119), is not modelled. No contract depends on that order.
- The catalog's size of twelve can be read from the `InitialActivities` literal. It is not stated as a lemma.
