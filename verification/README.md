# Theme-week showcase backend, modelled in Dafny

A model of the REST backend of a "theme week" showcase. Administrators
create, read, update and delete users, theme weeks, videos and materials.
Members log in with a bearer token and vote once per video. Anonymous
visitors browse the weeks, their videos and the materials.

The database is the class `Backend.Store`. It holds the five tables
(`users`, `weeks`, `videos`, `votes`, `materials`) as maps from row id to
record. Every route that changes a table is a method of `Store`. Each one
is a single transaction: it commits all of its changes or none, and it
returns the HTTP status. `Store.Valid()` is the schema's constraints:
unique usernames, one vote per (user, video) pair, and non-null foreign
keys that point at existing rows. Every method keeps it. Read-only routes
are functions over the tables.

Modules:

- `Models` (models.dfy): the records of `models.py`, the JSON body of a
  request (`Body`, a map from key to `Value`), and the column rules that
  decide whether the commit accepts a value. It also holds the schema
  constraints.
- `Tokens` (tokens.dfy): the shared part of the two `token_required`
  guards and of `/me`. This is the `Authorization` header, the optional
  `Bearer ` prefix, and the outcome of `jwt.decode`.
- `Admin` (admin.dfy): the admin guard (401, then 403), the list and get
  routes, and the records that create and partial update build from a
  body.
- `Auth` (auth.dfy): the user a registration body describes, login and
  `/me`.
- `Videos` (videos.dfy): the public video listing, member video
  submission, and the vote rule.
- `ThemeWeeks` (theme_weeks.dfy): the public week list with video counts,
  one week with its videos, and all materials.
- `Backend` (backend.dfy): the `Store` class and its mutating routes.

Some things come from outside the program. They are parameters of the
model:

- the verdict of `jwt.decode` on a token (`decode: string -> Decoded`);
- `datetime.fromisoformat` (`parse: string -> Option<Time>`);
- the id `uuid4()` draws (`newId`);
- the current time at login (`now`).

How failures map to statuses:

- Where a route catches `Exception`, a failed commit is a 400 with nothing
  changed. This covers a missing key, a non-Boolean value for a Boolean
  column, a taken username, an unknown week and a colliding id. A value of
  the wrong JSON type for a string column also fails, as on a database that
  checks column types (see "Left out").
- Where a route catches nothing, the same failures are a 500. This is the
  case for `register` and `vote_video`.
- Deleting a row that still has children fails. The relationships use
  SQLAlchemy's default cascade. That cascade sets the children's foreign
  key to NULL, which the NOT NULL column rejects. `SQLAlchemyError` is
  caught, so the answer is 400 and nothing changes.
- A duplicate username, a duplicate vote and a refused delete are each
  answered with 400, not 409.
- `register` accepts an `is_admin` field from anyone. The model keeps this
  as written.

## Model

| member | source | states |
|---|---|---|
| Backend.Store.constructor | models.py:79-80 | The tables start empty and satisfy every schema constraint. |
| Models.UniqueUsernames | models.py:19 | No two user rows share a username. |
| Models.UniqueVotes | models.py:62 | No two vote rows share the same (user_id, video_id) pair. |
| Models.ForeignKeys | models.py:50-76 | Every vote names an existing user and video, and every video and material names an existing week (the NOT NULL foreign keys). |
| Models.Consistent | models.py:15-77 | The conjunction of every constraint the schema declares. |
| Backend.Store.Valid | models.py:15-77 | The five tables satisfy every constraint the schema declares; every Store method keeps it. |
| Models.UsernameIdentifiesUser | models.py:19 | Under the unique index, at most one user row holds any given username. |
| Videos.VotesBoundedByUsers | models.py:58-62 | Under the schema's constraints, no video has more votes than there are users. |
| Tokens.StripBearer | blueprints/admin.py:20-22 | A header that starts with "Bearer " yields the rest after the prefix; any other header is used whole. |
| Tokens.StripBearerPrefixed | blueprints/auth.py:76-77 | Prefixing a token with "Bearer " and stripping it returns the token unchanged. |
| Tokens.Credential | blueprints/admin.py:14-22 | There is no token iff the header is absent or empty; otherwise the token is the header with any prefix stripped. |
| Tokens.Authenticate | blueprints/videos.py:10-31 | The guard admits iff a token is present and verifies, and it passes on exactly the token's claims. A missing, expired or invalid token is refused with 401. |
| Admin.AdminGate | blueprints/admin.py:11-33 | 401 exactly when the member guard refuses; 403 iff the token verifies but its admin flag is false; admits with the token's claims iff the token verifies and its admin flag is true. |
| Admin.UserViews | blueprints/admin.py:37-50 | There is one entry per user, holding that user's username and admin flag (no password). The user routes `get_users` and `get_user` are AdminList and AdminGet applied to `UserViews(users)`. |
| Admin.AdminList | blueprints/admin.py:139-155 | A list route answers with the guard's refusal, or with 200 and every row of the table. |
| Admin.AdminGet | blueprints/admin.py:182-201 | A get route answers with the guard's refusal, or with 200 and the row iff the id exists, or with 404 otherwise. |
| Admin.ThemeWeekFromBody | blueprints/admin.py:157-180 | A week is built iff title, start_date and end_date are present and every value fits its column. Absent optional keys default: description to NULL, result_url and image_url to "". Each field is the body's value. |
| Admin.VideoFromBody | blueprints/admin.py:269-291 | A video is built iff every required key is present and fits its column. Each field is the body's value, and description defaults to NULL. |
| Admin.MaterialFromBody | blueprints/admin.py:381-405 | A material is built iff every required key is present and fits its column. Each field is the body's value; description defaults to NULL, and is_winner is false when absent or null (the column default). |
| Admin.PatchUser | blueprints/admin.py:102-110 | The update is accepted iff there is a body and every present key fits its column. A present key sets its field and an absent key keeps the old value. |
| Admin.PatchThemeWeek | blueprints/admin.py:213-222 | As for users. A date is parsed only when its key is present, and an unparsable date rejects the update. |
| Admin.PatchVideo | blueprints/admin.py:324-332 | As for users, over every column including the owning week. |
| Admin.PatchMaterial | blueprints/admin.py:440-450 | As for users, over every column including is_winner and the owning week. |
| Admin.EmptyPatchKeepsRecords | blueprints/admin.py:215-220 | An update with an empty body leaves each kind of record unchanged. |
| Admin.PatchTwice | blueprints/admin.py:326-330 | Applying an accepted update a second time gives the same record as applying it once. |
| Admin.FullPatchIsCreate | blueprints/admin.py:326-330 | For theme weeks, videos and materials alike, an update whose body names every column yields the record that create builds from that body, whatever the old record was (for materials, with a Boolean is_winner: a null one is NULL on update but false on create). |
| Auth.UserFromBody | blueprints/auth.py:18-22 | A user is built iff username and password are present strings and is_admin, if present, is a Boolean or null. The fields are the body's values; is_admin is false when absent or null (the column default). |
| Auth.Login | blueprints/auth.py:30-68 | 400 for a missing or empty body or a missing key. 500 for a Boolean username, which the lookup cannot compare with the string column (nothing is caught). Otherwise 401 iff no stored user has exactly these credentials. Otherwise 200 and a token whose claims are that user's id, username and admin flag, expiring 24 hours after now. |
| Auth.Me | blueprints/auth.py:70-87 | 200 with exactly the token's claims iff the token is present and verifies; otherwise 401. |
| Auth.MeEchoesLogin | blueprints/auth.py:50-60 | Sending back, as "Bearer <token>", a token that login issued makes `/me` answer with the logged-in user's id, username and admin flag. |
| ThemeWeeks.VideosOf | models.py:38 | A week's videos are exactly the videos whose theme_week_id is that week, with their records. |
| ThemeWeeks.VideosCount | blueprints/theme_weeks.py:20 | A week's video count is at most the number of videos, and it is zero iff no video names that week. |
| ThemeWeeks.WeekList | blueprints/theme_weeks.py:8-25 | There is one entry per week; its count is the number of videos whose theme_week_id is that week. |
| ThemeWeeks.GetWeek | blueprints/theme_weeks.py:27-54 | 404 iff the id is unknown. Otherwise 200 with the week and exactly the videos that belong to it. |
| ThemeWeeks.AllMaterials | blueprints/theme_weeks.py:56-75 | Every material row of every week is listed, unchanged. |
| ThemeWeeks.DetailMatchesCount | blueprints/theme_weeks.py:20 | A week's count in the list equals the length of the video list in its detail. |
| ThemeWeeks.CountAfterInsert | blueprints/theme_weeks.py:20 | Adding a video raises its week's count by one and leaves every other week's count alone. |
| ThemeWeeks.TotalCountCountsEachVideoOnce | blueprints/theme_weeks.py:20 | Summing the counts of a set of weeks counts each video of those weeks exactly once. |
| ThemeWeeks.CountsCoverAllVideos | blueprints/theme_weeks.py:13-23 | When every video belongs to an existing week, the counts in the week list add up to the number of videos. |
| Videos.VotesCount | blueprints/videos.py:52 | A video's vote count is at most the number of votes, and it is zero iff no vote names that video. |
| Videos.ListVideos | blueprints/videos.py:33-56 | Unfiltered (no or empty theme_week_id) lists every video; filtered lists exactly the week's videos. Each entry carries the number of votes for that video. |
| Videos.ListVideosAsWritten | blueprints/videos.py:45-54 | As written, the listing succeeds iff nothing is selected; any selected video makes it answer 500. |
| Videos.AuthorLookupFails | blueprints/videos.py:50 | A store with one video and no votes makes the listing as written fail with 500, where the corrected listing shows that video with zero votes. |
| Videos.FilterIsWeekRelation | blueprints/videos.py:41-42 | Filtering the listing by a week selects the same videos as that week's detail. |
| Videos.SubmitVideo | blueprints/videos.py:58-77 | 401 iff the member guard refuses; otherwise 500, because the constructor gets a column Video does not have. |
| Videos.CastVote | blueprints/videos.py:79-103 | 400 iff the voter already voted for the video. 201 iff the voter has not voted, the user and video exist and the id is fresh; the table then gains exactly that vote. Otherwise 500 and no change. |
| Videos.CastVoteCounts | blueprints/videos.py:94-101 | A recorded vote makes the pair voted, raises that video's count by one and leaves every other video's count unchanged. |
| Videos.CastVoteTwice | blueprints/videos.py:86-92 | A second identical vote changes nothing, and after a recorded first vote it is refused with 400. |
| Videos.CastVoteConsistent | models.py:62 | A vote keeps one vote per (user, video) pair and keeps its foreign keys valid. |
| Backend.HasVotesBy | blueprints/admin.py:128-133 | A user has votes (so deleting the user is refused) iff the user has voted for some video. |
| Backend.HasVotesFor | blueprints/admin.py:350-355 | A video has votes (so deleting the video is refused) iff its vote count is positive. |
| Backend.WeekInUse | blueprints/admin.py:240-245 | A week is in use (so deleting it is refused) iff its video count is positive or some material names it. |
| Backend.Store.Register | blueprints/auth.py:9-28 | 400 iff the username is a string already taken. 201 iff the body describes a user whose name is free and the id is fresh; the table gains exactly that user. Otherwise 500; no other table changes. |
| Backend.Store.CreateUser | blueprints/admin.py:52-72 | Gives the guard's refusal with no change. 201 iff the body describes a user whose name is free and the id is fresh; the table gains exactly that user. Otherwise 400 and no change. |
| Backend.Store.UpdateUser | blueprints/admin.py:92-116 | Gives the guard's refusal, or 404 for an unknown id. 200 iff PatchUser accepts the body and no other user has the resulting username; only that row changes. Otherwise 400 and no change. |
| Backend.Store.DeleteUser | blueprints/admin.py:118-135 | Gives the guard's refusal, or 404. 400 with no change while the user has votes. Otherwise 200 and exactly that user is removed. |
| Backend.Store.CreateThemeWeek | blueprints/admin.py:157-180 | Gives the guard's refusal. 201 iff ThemeWeekFromBody builds a week and the id is fresh; the table gains exactly that week. Otherwise 400 and no change. |
| Backend.Store.UpdateThemeWeek | blueprints/admin.py:203-228 | Gives the guard's refusal, or 404. 200 and exactly PatchThemeWeek's record when it accepts the body. Otherwise 400 and no change. |
| Backend.Store.DeleteThemeWeek | blueprints/admin.py:230-247 | Gives the guard's refusal, or 404. 400 with no change while any video or material belongs to the week. Otherwise 200 and exactly that week is removed. |
| Backend.Store.CreateVideo | blueprints/admin.py:269-291 | Gives the guard's refusal. 201 iff VideoFromBody builds a video of an existing week and the id is fresh; the table gains exactly that video. Otherwise 400 and no change. |
| Backend.Store.UpdateVideo | blueprints/admin.py:314-338 | Gives the guard's refusal, or 404. 200 and exactly PatchVideo's record when it accepts the body and the week exists. Otherwise 400 and no change. |
| Backend.Store.DeleteVideo | blueprints/admin.py:340-357 | Gives the guard's refusal, or 404. 400 with no change while the video has votes. Otherwise 200 and exactly that video is removed. |
| Backend.Store.CreateMaterial | blueprints/admin.py:381-405 | Gives the guard's refusal. 201 iff MaterialFromBody builds a material of an existing week and the id is fresh; the table gains exactly that material. Otherwise 400 and no change. |
| Backend.Store.UpdateMaterial | blueprints/admin.py:430-456 | Gives the guard's refusal, or 404. 200 and exactly PatchMaterial's record when it accepts the body and the week exists. Otherwise 400 and no change. |
| Backend.Store.DeleteMaterial | blueprints/admin.py:458-475 | Gives the guard's refusal, or 404. Otherwise 200 and exactly that material is removed. |
| Backend.Store.VoteVideo | blueprints/videos.py:79-103 | 401 with no change when the member guard refuses. Otherwise the status and new vote table are those of CastVote for the token's user; no other table changes. |

## Left out

- Token signing and verification (HS256, the secret, the `exp` check) are not modelled. The verdict of `jwt.decode` is a parameter.
- Timestamps are not modelled: the `created_at` columns, the time login reads, and ISO formatting in responses. `datetime.fromisoformat` is a parameter.
- JSON response shapes and error message texts are not modelled; only statuses and data are. For this reason the model does not tell apart the three 400 messages of login.
- List order is not modelled, because the database returns rows in no specified order. Listings are maps keyed by id.
- Sessions, connection handling, concurrency and the races between check and insert are not modelled. Each route is one atomic transaction.
- Models.TextFits and Models.NullableFits follow a database that checks column types: a JSON Boolean for a string column (`{"username": true}`) is rejected. SQLAlchemy's String and Text types do not check the value, so on a lenient driver such as SQLite the commit would store it and the route would answer 200 or 201. Auth.Login follows the same database: its lookup by a Boolean username fails (500), where SQLite would answer 401.
- Length limits of the string columns (`String(80)` and the like) are not modelled. Whether they are enforced depends on the database.
- Admin.PatchUser, Admin.PatchMaterial: a JSON `null` for `is_admin` or `is_winner` in an update would be stored as NULL, because those columns are nullable. The model rejects it instead. (On create, a `null` flag is left out of the INSERT and the column takes its default false; Auth.UserFromBody and Admin.MaterialFromBody model that.)
- Requests whose body is not JSON are not modelled. Flask rejects them in `request.get_json()` with 400 or 415, depending on the Werkzeug version. A body of JSON `null` is modelled: it is the None of `Option<Body>`.
- JSON numbers, arrays and nested objects are not modelled as body values.
- Foreign keys are taken to be enforced by the database. An insert that names a missing user, video or week therefore fails.
- Videos.SubmitVideo: only the route as written is modelled. Every accepted request fails, and what it was meant to store is not modelled, because Video has no owner column to store it in.
- The author of a video (which owns a video) is not modelled, for the same reason.
- app.py, which registers the blueprints, is not part of this model.

## Findings

| source | as written | input that shows it | evidently intended | confidence | as-written member | corrected member |
|---|---|---|---|---|---|---|
| blueprints/videos.py:50 | Serialising each listed video reads `video.author.username`. Video has no `author` attribute, so the public listing answers 500 whenever it selects any video. | One video in week "w1" and no votes; `GET /` with no filter. | The listing shows every selected video with its vote count. | not executed | Videos.ListVideosAsWritten, Videos.AuthorLookupFails | Videos.ListVideos |
