/** The database behind every route, and the routes that change it. Each
    handler is one transaction: it either commits all of its changes or
    none (rollback), and it answers with an HTTP status. */
module Backend {
  import opened Models
  import opened Tokens
  import Auth
  import opened Admin
  import Videos
  import ThemeWeeks

  /** Some vote was cast by the user `id` (`User.votes` is not empty). */
  predicate HasVotesBy(votes: map<Id, Vote>, id: Id): (r: bool)
    ensures r <==> exists v :: Videos.HasVoted(votes, id, v)
  {
    assert forall k | k in votes && votes[k].userId == id :: Videos.HasVoted(votes, id, votes[k].videoId);
    exists k | k in votes :: votes[k].userId == id
  }

  /** Some vote was cast for the video `id` (`Video.votes` is not empty). */
  predicate HasVotesFor(votes: map<Id, Vote>, id: Id): (r: bool)
    ensures r <==> Videos.VotesCount(votes, id) > 0
  {
    Videos.VotesFor(votes, id) != {}
  }

  /** Some video or material belongs to the week `id`. */
  predicate WeekInUse(videos: map<Id, Video>, materials: map<Id, Material>, id: Id): (r: bool)
    ensures r <==>
      ThemeWeeks.VideosCount(videos, id) > 0 || exists k | k in materials :: materials[k].themeWeekId == id
  {
    || (exists k | k in videos :: videos[k].themeWeekId == id)
    || (exists k | k in materials :: materials[k].themeWeekId == id)
  }

  /** No user other than `id` has the username `name`. */
  predicate UsernameFreeFor(users: map<Id, User>, id: Id, name: string) {
    forall k | k in users && k != id :: users[k].username != name
  }

  /** The five tables. Deleting a row that still has children fails: the
      relationships' default cascade sets the children's foreign key to
      NULL, which the NOT NULL constraint rejects, so the route rolls back
      with 400. */
  class Store {
    var users: map<Id, User>
    var weeks: map<Id, ThemeWeek>
    var videos: map<Id, Video>
    var votes: map<Id, Vote>
    var materials: map<Id, Material>

    ghost predicate Valid()
      reads this
    {
      Consistent(users, weeks, videos, votes, materials)
    }

    /** The tables as `create_all` makes them: empty. */
    constructor ()
      ensures Valid()
      ensures users == map[] && weeks == map[] && videos == map[] && votes == map[] && materials == map[]
    {
      users, weeks, videos, votes, materials := map[], map[], map[], map[], map[];
    }

    // ===================================================================
    // blueprints/auth.py
    // ===================================================================

    /** `register`: 400 when the username is taken; 500 for what the route
        does not catch (no body, a missing key, a value the commit rejects,
        a colliding id); else 201 and exactly one new user. */
    method Register(body: Option<Body>, newId: Id) returns (status: nat)
      requires Valid()
      modifies this
      ensures Valid()
      ensures weeks == old(weeks) && videos == old(videos) && votes == old(votes) && materials == old(materials)
      ensures status == 400 <==>
        body.Some? && "username" in body.value && body.value["username"].Str?
        && !UsernameFree(old(users), body.value["username"].s)
      ensures status == 201 <==>
        && Auth.UserFromBody(body).Some?
        && UsernameFree(old(users), Auth.UserFromBody(body).value.username)
        && newId !in old(users)
      ensures status == 201 || status == 400 || status == 500
      ensures status == 201 ==> users == old(users)[newId := Auth.UserFromBody(body).value]
      ensures status != 201 ==> users == old(users)
    {
      if body.None? || "username" !in body.value {
        return 500;
      }
      var name := body.value["username"];
      if name.Str? && !UsernameFree(users, name.s) {
        return 400;
      }
      var user := Auth.UserFromBody(body);
      if user.None? || newId in users {
        return 500;
      }
      users := users[newId := user.value];
      status := 201;
    }

    // ===================================================================
    // blueprints/admin.py: users
    // ===================================================================

    /** `create_user`: the guard's refusal; 400 with nothing added for a
        body the commit rejects (a missing key, a taken username, a
        colliding id); else 201 and exactly one new user. */
    method CreateUser(header: Option<string>, decode: string -> Decoded, body: Option<Body>, newId: Id)
      returns (status: nat)
      requires Valid()
      modifies this
      ensures Valid()
      ensures weeks == old(weeks) && videos == old(videos) && votes == old(votes) && materials == old(materials)
      ensures AdminGate(header, decode).Refuse? ==>
        status == AdminGate(header, decode).status && users == old(users)
      ensures AdminGate(header, decode).Admit? ==>
        var user := Auth.UserFromBody(body);
        && (status == 201 <==> user.Some? && UsernameFree(old(users), user.value.username) && newId !in old(users))
        && (status == 201 ==> users == old(users)[newId := user.value])
        && (status != 201 ==> status == 400 && users == old(users))
    {
      var gate := AdminGate(header, decode);
      if gate.Refuse? {
        return gate.status;
      }
      var user := Auth.UserFromBody(body);
      if user.None? || !UsernameFree(users, user.value.username) || newId in users {
        return 400;
      }
      users := users[newId := user.value];
      status := 201;
    }

    /** `update_user`: the guard's refusal; 404 for an unknown id; 400 with
        no change when the body is rejected or the new username belongs to
        another user; else 200 and only this user's columns change. */
    method UpdateUser(header: Option<string>, decode: string -> Decoded, id: Id, body: Option<Body>)
      returns (status: nat)
      requires Valid()
      modifies this
      ensures Valid()
      ensures weeks == old(weeks) && videos == old(videos) && votes == old(votes) && materials == old(materials)
      ensures AdminGate(header, decode).Refuse? ==>
        status == AdminGate(header, decode).status && users == old(users)
      ensures AdminGate(header, decode).Admit? && id !in old(users) ==> status == 404 && users == old(users)
      ensures AdminGate(header, decode).Admit? && id in old(users) ==>
        var patched := PatchUser(old(users)[id], body);
        var accepted := patched.Some? && UsernameFreeFor(old(users), id, patched.value.username);
        && (accepted ==> status == 200 && users == old(users)[id := patched.value])
        && (!accepted ==> status == 400 && users == old(users))
    {
      var gate := AdminGate(header, decode);
      if gate.Refuse? {
        return gate.status;
      }
      if id !in users {
        return 404;
      }
      if body.None? {
        return 400;
      }
      var b := body.value;
      if !(TextFits(b, "username") && FlagFits(b, "is_admin") && TextFits(b, "password")) {
        return 400;
      }
      var user := users[id];
      user := user.(username := TextOr(b, "username", user.username));
      user := user.(isAdmin := FlagOr(b, "is_admin", user.isAdmin));
      if "password" in b {
        user := user.(password := b["password"].s);
      }
      if !UsernameFreeFor(users, id, user.username) {
        return 400;
      }
      users := users[id := user];
      status := 200;
    }

    /** `delete_user`: the guard's refusal; 404 for an unknown id; 400 with
        no change while votes of the user exist; else 200 and exactly that
        user is gone. */
    method DeleteUser(header: Option<string>, decode: string -> Decoded, id: Id) returns (status: nat)
      requires Valid()
      modifies this
      ensures Valid()
      ensures weeks == old(weeks) && videos == old(videos) && votes == old(votes) && materials == old(materials)
      ensures AdminGate(header, decode).Refuse? ==>
        status == AdminGate(header, decode).status && users == old(users)
      ensures AdminGate(header, decode).Admit? && id !in old(users) ==> status == 404 && users == old(users)
      ensures AdminGate(header, decode).Admit? && id in old(users) && HasVotesBy(old(votes), id) ==>
        status == 400 && users == old(users)
      ensures AdminGate(header, decode).Admit? && id in old(users) && !HasVotesBy(old(votes), id) ==>
        status == 200 && users == old(users) - {id}
    {
      var gate := AdminGate(header, decode);
      if gate.Refuse? {
        return gate.status;
      }
      if id !in users {
        return 404;
      }
      if HasVotesBy(votes, id) {
        return 400;
      }
      users := users - {id};
      status := 200;
    }

    // ===================================================================
    // blueprints/admin.py: theme weeks
    // ===================================================================

    /** `create_theme_week`: the guard's refusal; 400 with nothing added
        for a rejected body or a colliding id; else 201 and exactly one new
        week. */
    method CreateThemeWeek(
      header: Option<string>, decode: string -> Decoded, parse: string -> Option<Time>,
      body: Option<Body>, newId: Id)
      returns (status: nat)
      requires Valid()
      modifies this
      ensures Valid()
      ensures users == old(users) && videos == old(videos) && votes == old(votes) && materials == old(materials)
      ensures AdminGate(header, decode).Refuse? ==>
        status == AdminGate(header, decode).status && weeks == old(weeks)
      ensures AdminGate(header, decode).Admit? ==>
        var week := ThemeWeekFromBody(body, parse);
        && (status == 201 <==> week.Some? && newId !in old(weeks))
        && (status == 201 ==> weeks == old(weeks)[newId := week.value])
        && (status != 201 ==> status == 400 && weeks == old(weeks))
    {
      var gate := AdminGate(header, decode);
      if gate.Refuse? {
        return gate.status;
      }
      var week := ThemeWeekFromBody(body, parse);
      if week.None? || newId in weeks {
        return 400;
      }
      weeks := weeks[newId := week.value];
      status := 201;
    }

    /** `update_theme_week`: the guard's refusal; 404 for an unknown id;
        400 with no change for a rejected body; else 200 and only this
        week's columns change, as `PatchThemeWeek` says. */
    method UpdateThemeWeek(
      header: Option<string>, decode: string -> Decoded, parse: string -> Option<Time>,
      id: Id, body: Option<Body>)
      returns (status: nat)
      requires Valid()
      modifies this
      ensures Valid()
      ensures users == old(users) && videos == old(videos) && votes == old(votes) && materials == old(materials)
      ensures AdminGate(header, decode).Refuse? ==>
        status == AdminGate(header, decode).status && weeks == old(weeks)
      ensures AdminGate(header, decode).Admit? && id !in old(weeks) ==> status == 404 && weeks == old(weeks)
      ensures AdminGate(header, decode).Admit? && id in old(weeks) ==>
        var patched := PatchThemeWeek(old(weeks)[id], body, parse);
        && (patched.None? ==> status == 400 && weeks == old(weeks))
        && (patched.Some? ==> status == 200 && weeks == old(weeks)[id := patched.value])
    {
      var gate := AdminGate(header, decode);
      if gate.Refuse? {
        return gate.status;
      }
      if id !in weeks {
        return 404;
      }
      if body.None? {
        return 400;
      }
      var b := body.value;
      if !(TextFits(b, "title") && NullableFits(b, "description")
           && DateFits(parse, b, "start_date") && DateFits(parse, b, "end_date")
           && TextFits(b, "result_url") && TextFits(b, "image_url"))
      {
        return 400;
      }
      var week := weeks[id];
      week := week.(title := TextOr(b, "title", week.title));
      week := week.(description := NullableOr(b, "description", week.description));
      week := week.(startDate := DateOr(parse, b, "start_date", week.startDate));
      week := week.(endDate := DateOr(parse, b, "end_date", week.endDate));
      week := week.(resultUrl := TextOr(b, "result_url", week.resultUrl));
      week := week.(imageUrl := TextOr(b, "image_url", week.imageUrl));
      weeks := weeks[id := week];
      status := 200;
    }

    /** `delete_theme_week`: the guard's refusal; 404 for an unknown id;
        400 with no change while videos or materials of the week exist;
        else 200 and exactly that week is gone. */
    method DeleteThemeWeek(header: Option<string>, decode: string -> Decoded, id: Id) returns (status: nat)
      requires Valid()
      modifies this
      ensures Valid()
      ensures users == old(users) && videos == old(videos) && votes == old(votes) && materials == old(materials)
      ensures AdminGate(header, decode).Refuse? ==>
        status == AdminGate(header, decode).status && weeks == old(weeks)
      ensures AdminGate(header, decode).Admit? && id !in old(weeks) ==> status == 404 && weeks == old(weeks)
      ensures AdminGate(header, decode).Admit? && id in old(weeks) && WeekInUse(old(videos), old(materials), id) ==>
        status == 400 && weeks == old(weeks)
      ensures AdminGate(header, decode).Admit? && id in old(weeks) && !WeekInUse(old(videos), old(materials), id) ==>
        status == 200 && weeks == old(weeks) - {id}
    {
      var gate := AdminGate(header, decode);
      if gate.Refuse? {
        return gate.status;
      }
      if id !in weeks {
        return 404;
      }
      if WeekInUse(videos, materials, id) {
        return 400;
      }
      weeks := weeks - {id};
      status := 200;
    }

    // ===================================================================
    // blueprints/admin.py: videos
    // ===================================================================

    /** Admin `create_video`: the guard's refusal; 400 with nothing added
        for a rejected body, an unknown week or a colliding id; else 201
        and exactly one new video. */
    method CreateVideo(header: Option<string>, decode: string -> Decoded, body: Option<Body>, newId: Id)
      returns (status: nat)
      requires Valid()
      modifies this
      ensures Valid()
      ensures users == old(users) && weeks == old(weeks) && votes == old(votes) && materials == old(materials)
      ensures AdminGate(header, decode).Refuse? ==>
        status == AdminGate(header, decode).status && videos == old(videos)
      ensures AdminGate(header, decode).Admit? ==>
        var video := VideoFromBody(body);
        && (status == 201 <==> video.Some? && video.value.themeWeekId in old(weeks) && newId !in old(videos))
        && (status == 201 ==> videos == old(videos)[newId := video.value])
        && (status != 201 ==> status == 400 && videos == old(videos))
    {
      var gate := AdminGate(header, decode);
      if gate.Refuse? {
        return gate.status;
      }
      var video := VideoFromBody(body);
      if video.None? || video.value.themeWeekId !in weeks || newId in videos {
        return 400;
      }
      videos := videos[newId := video.value];
      status := 201;
    }

    /** Admin `update_video`: the guard's refusal; 404 for an unknown id;
        400 with no change for a rejected body or an unknown week; else 200
        and only this video's columns change, as `PatchVideo` says. */
    method UpdateVideo(header: Option<string>, decode: string -> Decoded, id: Id, body: Option<Body>)
      returns (status: nat)
      requires Valid()
      modifies this
      ensures Valid()
      ensures users == old(users) && weeks == old(weeks) && votes == old(votes) && materials == old(materials)
      ensures AdminGate(header, decode).Refuse? ==>
        status == AdminGate(header, decode).status && videos == old(videos)
      ensures AdminGate(header, decode).Admit? && id !in old(videos) ==> status == 404 && videos == old(videos)
      ensures AdminGate(header, decode).Admit? && id in old(videos) ==>
        var patched := PatchVideo(old(videos)[id], body);
        var accepted := patched.Some? && patched.value.themeWeekId in old(weeks);
        && (accepted ==> status == 200 && videos == old(videos)[id := patched.value])
        && (!accepted ==> status == 400 && videos == old(videos))
    {
      var gate := AdminGate(header, decode);
      if gate.Refuse? {
        return gate.status;
      }
      if id !in videos {
        return 404;
      }
      if body.None? {
        return 400;
      }
      var b := body.value;
      if !(TextFits(b, "title") && TextFits(b, "youtube_url") && NullableFits(b, "description")
           && TextFits(b, "student_name") && TextFits(b, "theme_week_id"))
      {
        return 400;
      }
      var video := videos[id];
      video := video.(title := TextOr(b, "title", video.title));
      video := video.(youtubeUrl := TextOr(b, "youtube_url", video.youtubeUrl));
      video := video.(description := NullableOr(b, "description", video.description));
      video := video.(studentName := TextOr(b, "student_name", video.studentName));
      video := video.(themeWeekId := TextOr(b, "theme_week_id", video.themeWeekId));
      if video.themeWeekId !in weeks {
        return 400;
      }
      videos := videos[id := video];
      status := 200;
    }

    /** Admin `delete_video`: the guard's refusal; 404 for an unknown id;
        400 with no change while votes for the video exist; else 200 and
        exactly that video is gone. */
    method DeleteVideo(header: Option<string>, decode: string -> Decoded, id: Id) returns (status: nat)
      requires Valid()
      modifies this
      ensures Valid()
      ensures users == old(users) && weeks == old(weeks) && votes == old(votes) && materials == old(materials)
      ensures AdminGate(header, decode).Refuse? ==>
        status == AdminGate(header, decode).status && videos == old(videos)
      ensures AdminGate(header, decode).Admit? && id !in old(videos) ==> status == 404 && videos == old(videos)
      ensures AdminGate(header, decode).Admit? && id in old(videos) && HasVotesFor(old(votes), id) ==>
        status == 400 && videos == old(videos)
      ensures AdminGate(header, decode).Admit? && id in old(videos) && !HasVotesFor(old(votes), id) ==>
        status == 200 && videos == old(videos) - {id}
    {
      var gate := AdminGate(header, decode);
      if gate.Refuse? {
        return gate.status;
      }
      if id !in videos {
        return 404;
      }
      if HasVotesFor(votes, id) {
        return 400;
      }
      videos := videos - {id};
      status := 200;
    }

    // ===================================================================
    // blueprints/admin.py: materials
    // ===================================================================

    /** `create_material`: the guard's refusal; 400 with nothing added for
        a rejected body, an unknown week or a colliding id; else 201 and
        exactly one new material. */
    method CreateMaterial(header: Option<string>, decode: string -> Decoded, body: Option<Body>, newId: Id)
      returns (status: nat)
      requires Valid()
      modifies this
      ensures Valid()
      ensures users == old(users) && weeks == old(weeks) && videos == old(videos) && votes == old(votes)
      ensures AdminGate(header, decode).Refuse? ==>
        status == AdminGate(header, decode).status && materials == old(materials)
      ensures AdminGate(header, decode).Admit? ==>
        var material := MaterialFromBody(body);
        && (status == 201 <==>
              material.Some? && material.value.themeWeekId in old(weeks) && newId !in old(materials))
        && (status == 201 ==> materials == old(materials)[newId := material.value])
        && (status != 201 ==> status == 400 && materials == old(materials))
    {
      var gate := AdminGate(header, decode);
      if gate.Refuse? {
        return gate.status;
      }
      var material := MaterialFromBody(body);
      if material.None? || material.value.themeWeekId !in weeks || newId in materials {
        return 400;
      }
      materials := materials[newId := material.value];
      status := 201;
    }

    /** `update_material`: the guard's refusal; 404 for an unknown id; 400
        with no change for a rejected body or an unknown week; else 200 and
        only this material's columns change, as `PatchMaterial` says. */
    method UpdateMaterial(header: Option<string>, decode: string -> Decoded, id: Id, body: Option<Body>)
      returns (status: nat)
      requires Valid()
      modifies this
      ensures Valid()
      ensures users == old(users) && weeks == old(weeks) && videos == old(videos) && votes == old(votes)
      ensures AdminGate(header, decode).Refuse? ==>
        status == AdminGate(header, decode).status && materials == old(materials)
      ensures AdminGate(header, decode).Admit? && id !in old(materials) ==>
        status == 404 && materials == old(materials)
      ensures AdminGate(header, decode).Admit? && id in old(materials) ==>
        var patched := PatchMaterial(old(materials)[id], body);
        var accepted := patched.Some? && patched.value.themeWeekId in old(weeks);
        && (accepted ==> status == 200 && materials == old(materials)[id := patched.value])
        && (!accepted ==> status == 400 && materials == old(materials))
    {
      var gate := AdminGate(header, decode);
      if gate.Refuse? {
        return gate.status;
      }
      if id !in materials {
        return 404;
      }
      if body.None? {
        return 400;
      }
      var b := body.value;
      if !(TextFits(b, "title") && NullableFits(b, "description") && TextFits(b, "student_name")
           && TextFits(b, "material_type") && TextFits(b, "url") && FlagFits(b, "is_winner")
           && TextFits(b, "theme_week_id"))
      {
        return 400;
      }
      var material := materials[id];
      material := material.(title := TextOr(b, "title", material.title));
      material := material.(description := NullableOr(b, "description", material.description));
      material := material.(studentName := TextOr(b, "student_name", material.studentName));
      material := material.(materialType := TextOr(b, "material_type", material.materialType));
      material := material.(url := TextOr(b, "url", material.url));
      material := material.(isWinner := FlagOr(b, "is_winner", material.isWinner));
      material := material.(themeWeekId := TextOr(b, "theme_week_id", material.themeWeekId));
      if material.themeWeekId !in weeks {
        return 400;
      }
      materials := materials[id := material];
      status := 200;
    }

    /** `delete_material`: the guard's refusal; 404 for an unknown id; else
        200 and exactly that material is gone (nothing refers to one). */
    method DeleteMaterial(header: Option<string>, decode: string -> Decoded, id: Id) returns (status: nat)
      requires Valid()
      modifies this
      ensures Valid()
      ensures users == old(users) && weeks == old(weeks) && videos == old(videos) && votes == old(votes)
      ensures AdminGate(header, decode).Refuse? ==>
        status == AdminGate(header, decode).status && materials == old(materials)
      ensures AdminGate(header, decode).Admit? && id !in old(materials) ==>
        status == 404 && materials == old(materials)
      ensures AdminGate(header, decode).Admit? && id in old(materials) ==>
        status == 200 && materials == old(materials) - {id}
    {
      var gate := AdminGate(header, decode);
      if gate.Refuse? {
        return gate.status;
      }
      if id !in materials {
        return 404;
      }
      materials := materials - {id};
      status := 200;
    }

    // ===================================================================
    // blueprints/videos.py
    // ===================================================================

    /** `vote_video`: the member guard's 401; otherwise check-then-insert
        for the token's user, as `Videos.CastVote` says. */
    method VoteVideo(header: Option<string>, decode: string -> Decoded, videoId: Id, newId: Id)
      returns (status: nat)
      requires Valid()
      modifies this
      ensures Valid()
      ensures users == old(users) && weeks == old(weeks) && videos == old(videos) && materials == old(materials)
      ensures Authenticate(header, decode).Refuse? ==> status == 401 && votes == old(votes)
      ensures Authenticate(header, decode).Admit? ==>
        (status, votes) == Videos.CastVote(old(users), old(videos), old(votes),
                                           Authenticate(header, decode).claims.userId, videoId, newId)
    {
      var gate := Authenticate(header, decode);
      if gate.Refuse? {
        return gate.status;
      }
      var userId := gate.claims.userId;
      if Videos.HasVoted(votes, userId, videoId) {
        return 400;
      }
      if userId !in users || videoId !in videos || newId in votes {
        return 500;
      }
      Videos.CastVoteConsistent(users, weeks, videos, votes, materials, userId, videoId, newId);
      votes := votes[newId := Vote(userId, videoId)];
      status := 201;
    }
  }
}
