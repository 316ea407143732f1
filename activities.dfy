/**
 Activities as the API shows them: the stored document without its `_id`,
 the listing that `get_activities` builds from a `find()` cursor, and the
 fixed catalog the collection is seeded with.
 */
module Activities {
  import opened DocumentStore

  /** An activity record as returned to clients: the document minus `_id`. */
  datatype Activity = Activity(
    description: string,
    schedule: string,
    maxParticipants: int,
    participants: seq<string>)

  /** The inner comprehension of `get_activities`: every field except `_id`. */
  function Project(d: Document): Activity {
    Activity(d.description, d.schedule, d.maxParticipants, d.participants)
  }

  /** The stored form of a catalog entry: `{"_id": name, **details}`. */
  function WithId(name: string, a: Activity): Document {
    Document(name, a.description, a.schedule, a.maxParticipants, a.participants)
  }

  lemma ProjectWithId(name: string, a: Activity, d: Document)
    ensures Project(WithId(name, a)) == a && WithId(name, a).id == name
    ensures WithId(d.id, Project(d)) == d
  {
  }

  /**
   The outer comprehension of `get_activities`, `{doc["_id"]: ... for doc in cursor}`:
   entries are added in cursor order, a later `_id` overwriting an earlier one.
   */
  function ListActivities(cursor: seq<Document>): map<string, Activity>
  {
    if cursor == [] then map[]
    else
      var last := cursor[|cursor| - 1];
      ListActivities(cursor[..|cursor| - 1])[last.id := Project(last)]
  }

  /** The listing of a collection, independent of any enumeration order. */
  ghost function Projection(c: Documents): map<string, Activity> {
    map k | k in c :: Project(c[k])
  }

  /** `cursor` is what `find()` may yield on `c`: stored documents, every one of them. */
  ghost predicate Enumerates(cursor: seq<Document>, c: Documents) {
    && (forall i :: 0 <= i < |cursor| ==> cursor[i].id in c && c[cursor[i].id] == cursor[i])
    && (forall k :: k in c ==> exists i :: 0 <= i < |cursor| && cursor[i].id == k)
  }

  /** Each key of the listing is some document's `_id`, mapped to that stored document's fields. */
  lemma {:induction false} ListActivitiesOfStored(cursor: seq<Document>, c: Documents)
    requires forall i :: 0 <= i < |cursor| ==> cursor[i].id in c && c[cursor[i].id] == cursor[i]
    ensures forall k :: k in ListActivities(cursor) <==> exists i :: 0 <= i < |cursor| && cursor[i].id == k
    ensures forall k :: k in ListActivities(cursor) ==> k in c && ListActivities(cursor)[k] == Project(c[k])
  {
    if cursor != [] {
      var init := cursor[..|cursor| - 1];
      forall i | 0 <= i < |init| ensures init[i].id in c && c[init[i].id] == init[i] {
        assert init[i] == cursor[i];
      }
      ListActivitiesOfStored(init, c);
      forall k ensures k in ListActivities(cursor) <==> exists i :: 0 <= i < |cursor| && cursor[i].id == k {
        if k in ListActivities(init) {
          var i :| 0 <= i < |init| && init[i].id == k;
          assert cursor[i].id == k;
        }
        if exists i :: 0 <= i < |cursor| && cursor[i].id == k {
          var i :| 0 <= i < |cursor| && cursor[i].id == k;
          if i < |init| {
            assert init[i].id == k;
          }
        }
      }
    }
  }

  /** Whatever order `find()` yields the documents in, the listing is the same. */
  lemma CursorListing(cursor: seq<Document>, c: Documents)
    requires Enumerates(cursor, c)
    ensures ListActivities(cursor) == Projection(c)
  {
    ListActivitiesOfStored(cursor, c);
    assert ListActivities(cursor).Keys == Projection(c).Keys;
  }

  /** The seed catalog, keyed by activity name. */
  const InitialActivities: map<string, Activity> := map[
    "Chess Club" := Activity(
      "Learn strategies and compete in chess tournaments",
      "Fridays, 3:30 PM - 5:00 PM",
      12,
      ["michael@mergington.edu", "daniel@mergington.edu", "olivia@mergington.edu"]),
    "Gym Class" := Activity(
      "Physical education and sports activities",
      "Mondays, Wednesdays, Fridays, 2:00 PM - 3:00 PM",
      30,
      ["john@mergington.edu", "olivia@mergington.edu"]),
    "Soccer Team" := Activity(
      "Join the school soccer team and compete in matches",
      "Tuesdays, Thursdays, 4:00 PM - 5:30 PM",
      22,
      ["alex@mergington.edu", "lucas@mergington.edu"]),
    "Basketball Club" := Activity(
      "Practice basketball skills and play friendly games",
      "Wednesdays, 3:30 PM - 5:00 PM",
      15,
      ["mia@mergington.edu", "noah@mergington.edu"]),
    "Swimming Team" := Activity(
      "Train and compete in swimming events",
      "Mondays, 4:00 PM - 5:30 PM",
      20,
      ["ava@mergington.edu", "liam@mergington.edu"]),
    // Artistic activities
    "Programming Class" := Activity(
      "Learn programming fundamentals and build software projects",
      "Tuesdays and Thursdays, 3:30 PM - 4:30 PM",
      20,
      ["emma@mergington.edu", "sophia@mergington.edu"]),
    "Art Club" := Activity(
      "Explore painting, drawing, and other visual arts",
      "Fridays, 2:00 PM - 3:30 PM",
      18,
      ["isabella@mergington.edu", "ethan@mergington.edu"]),
    "Drama Society" := Activity(
      "Act, direct, and produce school plays and performances",
      "Thursdays, 3:30 PM - 5:00 PM",
      25,
      ["charlotte@mergington.edu", "jack@mergington.edu"]),
    "Music Ensemble" := Activity(
      "Perform in a group with various musical instruments",
      "Wednesdays, 4:00 PM - 5:30 PM",
      20,
      ["amelia@mergington.edu", "benjamin@mergington.edu"]),
    // Intellectual activities
    "Science Club" := Activity(
      "Conduct experiments and explore scientific concepts",
      "Mondays, 3:30 PM - 5:00 PM",
      16,
      ["elijah@mergington.edu", "zoe@mergington.edu"]),
    "Mathletes" := Activity(
      "Solve challenging math problems and compete in contests",
      "Tuesdays, 2:00 PM - 3:30 PM",
      12,
      ["logan@mergington.edu", "grace@mergington.edu"]),
    "Debate Team" := Activity(
      "Develop public speaking and argumentation skills",
      "Fridays, 4:00 PM - 5:30 PM",
      14,
      ["henry@mergington.edu", "ella@mergington.edu"])
  ]

  /** The collection after seeding: each catalog entry stored under its name. */
  function SeedDocuments(): Documents {
    map name | name in InitialActivities :: WithId(name, InitialActivities[name])
  }

  /**
   The seeded collection is keyed by `_id`, holds exactly the catalog's names,
   lists the catalog back unchanged, and has no duplicate participant.
   */
  lemma SeedFacts()
    ensures SeedDocuments().Keys == InitialActivities.Keys
    ensures KeyedById(SeedDocuments())
    ensures Projection(SeedDocuments()) == InitialActivities
    ensures forall n :: n in SeedDocuments() ==> NoDuplicates(SeedDocuments()[n].participants)
    ensures forall n :: n in InitialActivities ==> InitialActivities[n].maxParticipants > 0
  {
  }
}
