/** Record shapes and table constraints of the theme-week showcase
    (models.py). Every table is a map from a row's primary key to the
    row's other columns; `created_at` timestamps are not modelled. */
module Models {

  datatype Option<T> = None | Some(value: T)

  /** Primary keys: uuid4 strings (String(36)). */
  type Id = string

  /** Instants in seconds: DateTime columns and token expiry times. */
  type Time = int

  /** A scalar of a JSON request body. */
  datatype Value = Null | Str(s: string) | Bool(b: bool)

  /** A JSON object request body. Where a route takes `Option<Body>`, None
      is a request whose JSON is `null` (`request.get_json()` returns None). */
  type Body = map<string, Value>

  /** What a handler answers: an HTTP status and, on success, a payload. */
  datatype Reply<T> = Done(status: nat, value: T) | Failed(status: nat)

  datatype User = User(username: string, password: string, isAdmin: bool)

  datatype ThemeWeek = ThemeWeek(
    title: string,
    description: Option<string>,
    resultUrl: string,
    startDate: Time,
    endDate: Time,
    imageUrl: string)

  datatype Video = Video(
    title: string,
    youtubeUrl: string,
    description: Option<string>,
    studentName: string,
    themeWeekId: Id)

  datatype Vote = Vote(userId: Id, videoId: Id)

  datatype Material = Material(
    title: string,
    description: Option<string>,
    studentName: string,
    materialType: string,
    url: string,
    isWinner: bool,
    themeWeekId: Id)

  // ---------------------------------------------------------------------
  // Columns filled from a request body. `XFits(b, key)` says the value
  // under `key`, if any, is one the commit accepts for a column of kind X
  // (otherwise the flush fails: a NOT NULL violation or a type mismatch);
  // `XOr(b, key, current)` is what `data.get(key, current)` stores there.
  // ---------------------------------------------------------------------

  /** A `String(..., nullable=False)` column. */
  predicate TextFits(b: Body, key: string) {
    key in b ==> b[key].Str?
  }

  function TextOr(b: Body, key: string, current: string): string
    requires TextFits(b, key)
  {
    if key in b then b[key].s else current
  }

  /** A nullable `Text` column: JSON null stores NULL. */
  predicate NullableFits(b: Body, key: string) {
    key in b ==> !b[key].Bool?
  }

  function NullableOr(b: Body, key: string, current: Option<string>): Option<string>
    requires NullableFits(b, key)
  {
    if key !in b then current else if b[key].Str? then Some(b[key].s) else None
  }

  /** What a nullable `Text` column stores for a value that fits it. */
  function NullableValue(v: Value): Option<string> {
    if v.Str? then Some(v.s) else None
  }

  /** A `Boolean` column. */
  predicate FlagFits(b: Body, key: string) {
    key in b ==> b[key].Bool?
  }

  function FlagOr(b: Body, key: string, current: bool): bool
    requires FlagFits(b, key)
  {
    if key in b then b[key].b else current
  }

  /** A `Boolean` column with `default=False`, as a new row is inserted: a
      JSON null leaves the attribute None, which the INSERT omits, so the
      column takes its default. */
  predicate NewFlagFits(b: Body, key: string) {
    key in b ==> !b[key].Str?
  }

  function NewFlag(b: Body, key: string): bool {
    key in b && b[key] == Bool(true)
  }

  /** A `DateTime` column filled by `datetime.fromisoformat`, whose parser
      is the parameter `parse` (None: ValueError; a non-string: TypeError). */
  predicate DateFits(parse: string -> Option<Time>, b: Body, key: string) {
    key in b ==> b[key].Str? && parse(b[key].s).Some?
  }

  function DateOr(parse: string -> Option<Time>, b: Body, key: string, current: Time): Time
    requires DateFits(parse, b, key)
  {
    if key in b then parse(b[key].s).value else current
  }

  // ---------------------------------------------------------------------
  // Table constraints
  // ---------------------------------------------------------------------

  /** The unique index on `users.username` (models.py:19). */
  ghost predicate UniqueUsernames(users: map<Id, User>) {
    forall a, b :: a in users && b in users && users[a].username == users[b].username ==> a == b
  }

  /** No user row holds `name`: the lookup `filter_by(username=name).first()` finds nothing. */
  predicate UsernameFree(users: map<Id, User>, name: string) {
    forall k | k in users :: users[k].username != name
  }

  /** The `unique_vote` constraint on (user_id, video_id) (models.py:62). */
  ghost predicate UniqueVotes(votes: map<Id, Vote>) {
    forall a, b :: a in votes && b in votes && votes[a] == votes[b] ==> a == b
  }

  /** The non-null foreign keys of Vote, Video and Material. */
  ghost predicate ForeignKeys(
    users: map<Id, User>, weeks: map<Id, ThemeWeek>, videos: map<Id, Video>,
    votes: map<Id, Vote>, materials: map<Id, Material>)
  {
    && (forall k :: k in votes ==> votes[k].userId in users && votes[k].videoId in videos)
    && (forall k :: k in videos ==> videos[k].themeWeekId in weeks)
    && (forall k :: k in materials ==> materials[k].themeWeekId in weeks)
  }

  /** Every constraint the schema declares. */
  ghost predicate Consistent(
    users: map<Id, User>, weeks: map<Id, ThemeWeek>, videos: map<Id, Video>,
    votes: map<Id, Vote>, materials: map<Id, Material>)
  {
    && UniqueUsernames(users)
    && UniqueVotes(votes)
    && ForeignKeys(users, weeks, videos, votes, materials)
  }

  /** A subset is no larger than its superset. */
  lemma {:induction false} SubsetSize<T>(s: set<T>, t: set<T>)
    requires s <= t
    ensures |s| <= |t|
    decreases s
  {
    if s != {} {
      var x :| x in s;
      SubsetSize(s - {x}, t - {x});
    }
  }

  /** Under the unique index, at most one user row holds any username, so
      the lookup by username in `login` and `register` finds that row or none. */
  lemma {:induction false} UsernameIdentifiesUser(users: map<Id, User>, name: string)
    requires UniqueUsernames(users)
    ensures |set k | k in users && users[k].username == name| <= 1
  {
    var holders := set k | k in users && users[k].username == name;
    if holders != {} {
      var a :| a in holders;
      assert holders == {a};
    }
  }
}
