/** The admin API's decisions (blueprints/admin.py): its `token_required`
    guard, the read-only list and get routes, and the records that create
    and partial update build from a request body. The routes that change
    a table are methods of `Backend.Store`, which uses these functions. */
module Admin {
  import opened Models
  import opened Tokens

  /** `token_required` of the admin blueprint: 401 as `Authenticate`
      decides, then 403 for a valid token whose `is_admin` is false. */
  function AdminGate(header: Option<string>, decode: string -> Decoded): (g: Gate)
    ensures Authenticate(header, decode).Refuse? ==> g == Refuse(401)
    ensures g == Refuse(403) <==>
      Authenticate(header, decode).Admit? && !Authenticate(header, decode).claims.isAdmin
    ensures g.Admit? <==>
      Authenticate(header, decode).Admit? && Authenticate(header, decode).claims.isAdmin
    ensures g.Admit? ==> g.claims == Authenticate(header, decode).claims
  {
    match Authenticate(header, decode)
    case Refuse(status) => Refuse(status)
    case Admit(claims) => if claims.isAdmin then Admit(claims) else Refuse(403)
  }

  /** What the user routes show of a user: no password. */
  datatype UserView = UserView(username: string, isAdmin: bool)

  function UserViews(users: map<Id, User>): (r: map<Id, UserView>)
    ensures r.Keys == users.Keys
    ensures forall k :: k in r ==> r[k].username == users[k].username && r[k].isAdmin == users[k].isAdmin
  {
    map k | k in users :: UserView(users[k].username, users[k].isAdmin)
  }

  /** A list route (`get_users`, `get_theme_weeks`, `get_videos`,
      `get_materials`): the guard's refusal, or every row. */
  function AdminList<R>(header: Option<string>, decode: string -> Decoded, table: map<Id, R>)
    : (r: Reply<map<Id, R>>)
    ensures AdminGate(header, decode).Refuse? ==> r == Failed(AdminGate(header, decode).status)
    ensures AdminGate(header, decode).Admit? ==> r == Done(200, table)
  {
    match AdminGate(header, decode)
    case Refuse(status) => Failed(status)
    case Admit(_) => Done(200, table)
  }

  /** A get route (`get_theme_week`, `get_video`, `get_material`; `get_user`
      over `UserViews(users)`, so without the password): the guard's
      refusal, 404 for an unknown id, or the row. */
  function AdminGet<R>(header: Option<string>, decode: string -> Decoded, table: map<Id, R>, id: Id)
    : (r: Reply<R>)
    ensures AdminGate(header, decode).Refuse? ==> r == Failed(AdminGate(header, decode).status)
    ensures AdminGate(header, decode).Admit? ==>
      && (r.Done? <==> id in table)
      && (r.Done? ==> r.status == 200 && r.value == table[id])
      && (r.Failed? ==> r.status == 404)
  {
    match AdminGate(header, decode)
    case Refuse(status) => Failed(status)
    case Admit(_) => if id in table then Done(200, table[id]) else Failed(404)
  }

  // ---------------------------------------------------------------------
  // Create: the record a body describes, or None (no body, a KeyError, or
  // a value the commit rejects): the route then rolls back and answers 400.
  // ---------------------------------------------------------------------

  /** `ThemeWeek(...)` of `create_theme_week`: title, start_date and
      end_date are required; description defaults to NULL, result_url and
      image_url to the empty string. */
  function ThemeWeekFromBody(body: Option<Body>, parse: string -> Option<Time>): (r: Option<ThemeWeek>)
    ensures body.None? || "title" !in body.value || "start_date" !in body.value || "end_date" !in body.value
      ==> r.None?
    ensures r.Some? <==>
      && body.Some? && "title" in body.value && "start_date" in body.value && "end_date" in body.value
      && body.value["title"].Str?
      && body.value["start_date"].Str? && parse(body.value["start_date"].s).Some?
      && body.value["end_date"].Str? && parse(body.value["end_date"].s).Some?
      && ("description" in body.value ==> !body.value["description"].Bool?)
      && ("result_url" in body.value ==> body.value["result_url"].Str?)
      && ("image_url" in body.value ==> body.value["image_url"].Str?)
    ensures r.Some? ==>
      && body.value["title"] == Str(r.value.title)
      && parse(body.value["start_date"].s) == Some(r.value.startDate)
      && parse(body.value["end_date"].s) == Some(r.value.endDate)
      && (if "description" in body.value then r.value.description == NullableValue(body.value["description"])
          else r.value.description == None)
      && (if "result_url" in body.value then body.value["result_url"] == Str(r.value.resultUrl)
          else r.value.resultUrl == "")
      && (if "image_url" in body.value then body.value["image_url"] == Str(r.value.imageUrl)
          else r.value.imageUrl == "")
  {
    if body.None? then None
    else
      var b := body.value;
      if !("title" in b && "start_date" in b && "end_date" in b
           && TextFits(b, "title") && NullableFits(b, "description")
           && DateFits(parse, b, "start_date") && DateFits(parse, b, "end_date")
           && TextFits(b, "result_url") && TextFits(b, "image_url"))
      then None
      else Some(ThemeWeek(b["title"].s, NullableOr(b, "description", None), TextOr(b, "result_url", ""),
                          DateOr(parse, b, "start_date", 0), DateOr(parse, b, "end_date", 0),
                          TextOr(b, "image_url", "")))
  }

  /** `Video(...)` of the admin `create_video`: title, youtube_url,
      student_name and theme_week_id are required; description defaults
      to NULL. */
  function VideoFromBody(body: Option<Body>): (r: Option<Video>)
    ensures body.None? || "title" !in body.value || "youtube_url" !in body.value
      || "student_name" !in body.value || "theme_week_id" !in body.value
      ==> r.None?
    ensures r.Some? <==>
      && body.Some? && "title" in body.value && "youtube_url" in body.value
      && "student_name" in body.value && "theme_week_id" in body.value
      && body.value["title"].Str? && body.value["youtube_url"].Str?
      && body.value["student_name"].Str? && body.value["theme_week_id"].Str?
      && ("description" in body.value ==> !body.value["description"].Bool?)
    ensures r.Some? ==>
      && body.value["title"] == Str(r.value.title)
      && body.value["youtube_url"] == Str(r.value.youtubeUrl)
      && body.value["student_name"] == Str(r.value.studentName)
      && body.value["theme_week_id"] == Str(r.value.themeWeekId)
      && (if "description" in body.value then r.value.description == NullableValue(body.value["description"])
          else r.value.description == None)
  {
    if body.None? then None
    else
      var b := body.value;
      if !("title" in b && "youtube_url" in b && "student_name" in b && "theme_week_id" in b
           && TextFits(b, "title") && TextFits(b, "youtube_url") && NullableFits(b, "description")
           && TextFits(b, "student_name") && TextFits(b, "theme_week_id"))
      then None
      else Some(Video(b["title"].s, b["youtube_url"].s, NullableOr(b, "description", None),
                      b["student_name"].s, b["theme_week_id"].s))
  }

  /** `Material(...)` of `create_material`: title, student_name,
      material_type, url and theme_week_id are required; description
      defaults to NULL and is_winner, when absent or null, to false. */
  function MaterialFromBody(body: Option<Body>): (r: Option<Material>)
    ensures body.None? || "title" !in body.value || "student_name" !in body.value
      || "material_type" !in body.value || "url" !in body.value || "theme_week_id" !in body.value
      ==> r.None?
    ensures r.Some? <==>
      && body.Some? && "title" in body.value && "student_name" in body.value
      && "material_type" in body.value && "url" in body.value && "theme_week_id" in body.value
      && body.value["title"].Str? && body.value["student_name"].Str?
      && body.value["material_type"].Str? && body.value["url"].Str? && body.value["theme_week_id"].Str?
      && ("description" in body.value ==> !body.value["description"].Bool?)
      && ("is_winner" in body.value ==> !body.value["is_winner"].Str?)
    ensures r.Some? ==>
      && body.value["title"] == Str(r.value.title)
      && body.value["student_name"] == Str(r.value.studentName)
      && body.value["material_type"] == Str(r.value.materialType)
      && body.value["url"] == Str(r.value.url)
      && body.value["theme_week_id"] == Str(r.value.themeWeekId)
      && (if "description" in body.value then r.value.description == NullableValue(body.value["description"])
          else r.value.description == None)
      && r.value.isWinner == ("is_winner" in body.value && body.value["is_winner"] == Bool(true))
  {
    if body.None? then None
    else
      var b := body.value;
      if !("title" in b && "student_name" in b && "material_type" in b && "url" in b && "theme_week_id" in b
           && TextFits(b, "title") && NullableFits(b, "description") && TextFits(b, "student_name")
           && TextFits(b, "material_type") && TextFits(b, "url") && NewFlagFits(b, "is_winner")
           && TextFits(b, "theme_week_id"))
      then None
      else Some(Material(b["title"].s, NullableOr(b, "description", None), b["student_name"].s,
                         b["material_type"].s, b["url"].s, NewFlag(b, "is_winner"),
                         b["theme_week_id"].s))
  }

  // ---------------------------------------------------------------------
  // Partial update: a field takes the body's value when its key is
  // present (even JSON null) and keeps its old value otherwise; None when
  // there is no body or a present value does not fit its column.
  // ---------------------------------------------------------------------

  /** `update_user`: username, is_admin and password. */
  function PatchUser(u: User, body: Option<Body>): (r: Option<User>)
    ensures r.Some? <==>
      && body.Some?
      && ("username" in body.value ==> body.value["username"].Str?)
      && ("is_admin" in body.value ==> body.value["is_admin"].Bool?)
      && ("password" in body.value ==> body.value["password"].Str?)
    ensures r.Some? ==>
      && (if "username" in body.value then body.value["username"] == Str(r.value.username)
          else r.value.username == u.username)
      && (if "is_admin" in body.value then body.value["is_admin"] == Bool(r.value.isAdmin)
          else r.value.isAdmin == u.isAdmin)
      && (if "password" in body.value then body.value["password"] == Str(r.value.password)
          else r.value.password == u.password)
  {
    if body.None? then None
    else
      var b := body.value;
      if !(TextFits(b, "username") && FlagFits(b, "is_admin") && TextFits(b, "password")) then None
      else Some(User(TextOr(b, "username", u.username), TextOr(b, "password", u.password),
                     FlagOr(b, "is_admin", u.isAdmin)))
  }

  /** `update_theme_week`: every column; a date key is parsed only when present. */
  function PatchThemeWeek(w: ThemeWeek, body: Option<Body>, parse: string -> Option<Time>)
    : (r: Option<ThemeWeek>)
    ensures r.Some? <==>
      && body.Some?
      && ("title" in body.value ==> body.value["title"].Str?)
      && ("description" in body.value ==> !body.value["description"].Bool?)
      && ("start_date" in body.value ==>
            body.value["start_date"].Str? && parse(body.value["start_date"].s).Some?)
      && ("end_date" in body.value ==>
            body.value["end_date"].Str? && parse(body.value["end_date"].s).Some?)
      && ("result_url" in body.value ==> body.value["result_url"].Str?)
      && ("image_url" in body.value ==> body.value["image_url"].Str?)
    ensures r.Some? ==>
      && (if "title" in body.value then body.value["title"] == Str(r.value.title)
          else r.value.title == w.title)
      && (if "description" in body.value then r.value.description == NullableValue(body.value["description"])
          else r.value.description == w.description)
      && (if "start_date" in body.value then parse(body.value["start_date"].s) == Some(r.value.startDate)
          else r.value.startDate == w.startDate)
      && (if "end_date" in body.value then parse(body.value["end_date"].s) == Some(r.value.endDate)
          else r.value.endDate == w.endDate)
      && (if "result_url" in body.value then body.value["result_url"] == Str(r.value.resultUrl)
          else r.value.resultUrl == w.resultUrl)
      && (if "image_url" in body.value then body.value["image_url"] == Str(r.value.imageUrl)
          else r.value.imageUrl == w.imageUrl)
  {
    if body.None? then None
    else
      var b := body.value;
      if !(TextFits(b, "title") && NullableFits(b, "description")
           && DateFits(parse, b, "start_date") && DateFits(parse, b, "end_date")
           && TextFits(b, "result_url") && TextFits(b, "image_url"))
      then None
      else Some(ThemeWeek(TextOr(b, "title", w.title), NullableOr(b, "description", w.description),
                          TextOr(b, "result_url", w.resultUrl),
                          DateOr(parse, b, "start_date", w.startDate), DateOr(parse, b, "end_date", w.endDate),
                          TextOr(b, "image_url", w.imageUrl)))
  }

  /** `update_video`: every column, including the owning week. */
  function PatchVideo(v: Video, body: Option<Body>): (r: Option<Video>)
    ensures r.Some? <==>
      && body.Some?
      && ("title" in body.value ==> body.value["title"].Str?)
      && ("youtube_url" in body.value ==> body.value["youtube_url"].Str?)
      && ("description" in body.value ==> !body.value["description"].Bool?)
      && ("student_name" in body.value ==> body.value["student_name"].Str?)
      && ("theme_week_id" in body.value ==> body.value["theme_week_id"].Str?)
    ensures r.Some? ==>
      && (if "title" in body.value then body.value["title"] == Str(r.value.title)
          else r.value.title == v.title)
      && (if "youtube_url" in body.value then body.value["youtube_url"] == Str(r.value.youtubeUrl)
          else r.value.youtubeUrl == v.youtubeUrl)
      && (if "description" in body.value then r.value.description == NullableValue(body.value["description"])
          else r.value.description == v.description)
      && (if "student_name" in body.value then body.value["student_name"] == Str(r.value.studentName)
          else r.value.studentName == v.studentName)
      && (if "theme_week_id" in body.value then body.value["theme_week_id"] == Str(r.value.themeWeekId)
          else r.value.themeWeekId == v.themeWeekId)
  {
    if body.None? then None
    else
      var b := body.value;
      if !(TextFits(b, "title") && TextFits(b, "youtube_url") && NullableFits(b, "description")
           && TextFits(b, "student_name") && TextFits(b, "theme_week_id"))
      then None
      else Some(Video(TextOr(b, "title", v.title), TextOr(b, "youtube_url", v.youtubeUrl),
                      NullableOr(b, "description", v.description), TextOr(b, "student_name", v.studentName),
                      TextOr(b, "theme_week_id", v.themeWeekId)))
  }

  /** `update_material`: every column, including the owning week. */
  function PatchMaterial(m: Material, body: Option<Body>): (r: Option<Material>)
    ensures r.Some? <==>
      && body.Some?
      && ("title" in body.value ==> body.value["title"].Str?)
      && ("description" in body.value ==> !body.value["description"].Bool?)
      && ("student_name" in body.value ==> body.value["student_name"].Str?)
      && ("material_type" in body.value ==> body.value["material_type"].Str?)
      && ("url" in body.value ==> body.value["url"].Str?)
      && ("is_winner" in body.value ==> body.value["is_winner"].Bool?)
      && ("theme_week_id" in body.value ==> body.value["theme_week_id"].Str?)
    ensures r.Some? ==>
      && (if "title" in body.value then body.value["title"] == Str(r.value.title)
          else r.value.title == m.title)
      && (if "description" in body.value then r.value.description == NullableValue(body.value["description"])
          else r.value.description == m.description)
      && (if "student_name" in body.value then body.value["student_name"] == Str(r.value.studentName)
          else r.value.studentName == m.studentName)
      && (if "material_type" in body.value then body.value["material_type"] == Str(r.value.materialType)
          else r.value.materialType == m.materialType)
      && (if "url" in body.value then body.value["url"] == Str(r.value.url)
          else r.value.url == m.url)
      && (if "is_winner" in body.value then body.value["is_winner"] == Bool(r.value.isWinner)
          else r.value.isWinner == m.isWinner)
      && (if "theme_week_id" in body.value then body.value["theme_week_id"] == Str(r.value.themeWeekId)
          else r.value.themeWeekId == m.themeWeekId)
  {
    if body.None? then None
    else
      var b := body.value;
      if !(TextFits(b, "title") && NullableFits(b, "description") && TextFits(b, "student_name")
           && TextFits(b, "material_type") && TextFits(b, "url") && FlagFits(b, "is_winner")
           && TextFits(b, "theme_week_id"))
      then None
      else Some(Material(TextOr(b, "title", m.title), NullableOr(b, "description", m.description),
                         TextOr(b, "student_name", m.studentName), TextOr(b, "material_type", m.materialType),
                         TextOr(b, "url", m.url), FlagOr(b, "is_winner", m.isWinner),
                         TextOr(b, "theme_week_id", m.themeWeekId)))
  }

  // ---------------------------------------------------------------------
  // Properties of partial update
  // ---------------------------------------------------------------------

  /** An update with an empty body changes nothing. */
  lemma {:induction false} EmptyPatchKeepsRecords(
    u: User, w: ThemeWeek, v: Video, m: Material, parse: string -> Option<Time>)
    ensures PatchUser(u, Some(map[])) == Some(u)
    ensures PatchThemeWeek(w, Some(map[]), parse) == Some(w)
    ensures PatchVideo(v, Some(map[])) == Some(v)
    ensures PatchMaterial(m, Some(map[])) == Some(m)
  {
  }

  /** Sending the same update twice leaves the record as sending it once. */
  lemma {:induction false} PatchTwice(
    u: User, w: ThemeWeek, v: Video, m: Material, body: Option<Body>, parse: string -> Option<Time>)
    ensures PatchUser(u, body).Some? ==> PatchUser(PatchUser(u, body).value, body) == PatchUser(u, body)
    ensures PatchThemeWeek(w, body, parse).Some? ==>
      PatchThemeWeek(PatchThemeWeek(w, body, parse).value, body, parse) == PatchThemeWeek(w, body, parse)
    ensures PatchVideo(v, body).Some? ==> PatchVideo(PatchVideo(v, body).value, body) == PatchVideo(v, body)
    ensures PatchMaterial(m, body).Some? ==>
      PatchMaterial(PatchMaterial(m, body).value, body) == PatchMaterial(m, body)
  {
  }

  /** A body that names every column builds, through update, exactly the
      record that create builds from it, whatever the old record was. */
  lemma {:induction false} FullPatchIsCreate(
    w: ThemeWeek, v: Video, m: Material, body: Option<Body>, parse: string -> Option<Time>)
    ensures ThemeWeekFromBody(body, parse).Some?
            && "description" in body.value && "result_url" in body.value && "image_url" in body.value
            ==> PatchThemeWeek(w, body, parse) == ThemeWeekFromBody(body, parse)
    ensures VideoFromBody(body).Some? && "description" in body.value ==>
      PatchVideo(v, body) == VideoFromBody(body)
    ensures MaterialFromBody(body).Some? && "description" in body.value
            && "is_winner" in body.value && body.value["is_winner"].Bool? ==>
      PatchMaterial(m, body) == MaterialFromBody(body)
  {
  }
}
