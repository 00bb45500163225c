/** The courses of each user: exactly one default while there is any, and distinct names. */
module Courses {
  import opened Options

  type UserId = nat
  type CourseId = nat
  type Time = int

  const DEFAULT_COURSE_NAME: string := "\U{9ED8}\U{8BA4}\U{8BFE}\U{7A0B}"

  datatype Course = Course(user: UserId, name: string, isDefault: bool, createdAt: Time)

  datatype Catalog = Catalog(courses: map<CourseId, Course>, nextId: CourseId)

  datatype Error = NotFound | NameTaken

  predicate Owned(s: Catalog, u: UserId, c: CourseId) {
    c in s.courses && s.courses[c].user == u
  }

  predicate HasCourses(s: Catalog, u: UserId) {
    exists c | c in s.courses :: s.courses[c].user == u
  }

  predicate NameInUse(s: Catalog, u: UserId, name: string, except: Option<CourseId>) {
    exists c | c in s.courses :: s.courses[c].user == u && s.courses[c].name == name && except != Some(c)
  }

  // ---------------------------------------------------------------- ordering

  /** ORDER BY created_at, id; with the default first when asked for. */
  predicate Before(s: Catalog, a: CourseId, b: CourseId, defaultFirst: bool)
    requires a in s.courses && b in s.courses
  {
    var x, y := s.courses[a], s.courses[b];
    if defaultFirst && x.isDefault != y.isDefault then x.isDefault
    else x.createdAt < y.createdAt || (x.createdAt == y.createdAt && a < b)
  }

  /** The first of the user's courses below `n`, leaving one out. */
  function First(s: Catalog, u: UserId, except: Option<CourseId>, defaultFirst: bool, n: CourseId)
    : (first: Option<CourseId>)
    ensures first.Some? ==> first.value < n && Owned(s, u, first.value) && except != first
  {
    if n == 0 then None
    else
      var best := First(s, u, except, defaultFirst, n - 1);
      if !Owned(s, u, n - 1) || except == Some(n - 1) then best
      else if best.None? || Before(s, n - 1, best.value, defaultFirst) then Some(n - 1)
      else best
  }

  /** It exists when any candidate does, and no candidate comes before it. */
  lemma {:induction false} FirstIsFirst(s: Catalog, u: UserId, except: Option<CourseId>, defaultFirst: bool,
                                        n: CourseId)
    ensures var first := First(s, u, except, defaultFirst, n);
            forall c: CourseId | c < n && Owned(s, u, c) && except != Some(c) ::
              first.Some? && (c == first.value || Before(s, first.value, c, defaultFirst))
  {
    if n > 0 {
      FirstIsFirst(s, u, except, defaultFirst, n - 1);
    }
  }

  // ---------------------------------------------------------------- the calls

  function Create(s: Catalog, u: UserId, name: string, now: Time): (Catalog, Option<Error>) {
    if NameInUse(s, u, name, None) then (s, Some(NameTaken))
    else
      (Catalog(s.courses[s.nextId := Course(u, name, !HasCourses(s, u), now)], s.nextId + 1), None)
  }

  function SetDefault(s: Catalog, c: CourseId, isDefault: bool): Catalog
    requires c in s.courses
  {
    s.(courses := s.courses[c := s.courses[c].(isDefault := isDefault)])
  }

  function ClearOthers(s: Catalog, u: UserId, c: CourseId): Catalog {
    s.(courses := map k | k in s.courses ::
         if s.courses[k].user == u && k != c then s.courses[k].(isDefault := false) else s.courses[k])
  }

  function ChooseDefault(s: Catalog, u: UserId, c: CourseId, isDefault: Option<bool>): Catalog
    requires c in s.courses
  {
    if isDefault == Some(true) then SetDefault(ClearOthers(s, u, c), c, true)
    else if isDefault == Some(false) && s.courses[c].isDefault then
      match First(s, u, Some(c), false, s.nextId)
      case None => s
      case Some(replacement) => SetDefault(SetDefault(s, c, false), replacement, true)
    else s
  }

  function Update(s: Catalog, u: UserId, c: CourseId, name: Option<string>, isDefault: Option<bool>)
    : (Catalog, Option<Error>)
  {
    if !Owned(s, u, c) then (s, Some(NotFound))
    else
      var renamed := name.Some? && name.value != s.courses[c].name;
      if renamed && NameInUse(s, u, name.value, Some(c)) then (s, Some(NameTaken))
      else
        var t := if renamed then s.(courses := s.courses[c := s.courses[c].(name := name.value)]) else s;
        (ChooseDefault(t, u, c, isDefault), None)
  }

  function Delete(s: Catalog, u: UserId, c: CourseId): (Catalog, Option<Error>) {
    if !Owned(s, u, c) then (s, Some(NotFound))
    else
      var t := s.(courses := s.courses - {c});
      if !s.courses[c].isDefault then (t, None)
      else
        match First(t, u, None, false, t.nextId)
        case None => (t, None)
        case Some(replacement) => (SetDefault(t, replacement, true), None)
  }

  /** With an id: that course, if owned. Without: the default, created when there is no course. */
  function Resolve(s: Catalog, u: UserId, c: Option<CourseId>, now: Time): (Catalog, Result<CourseId, Error>) {
    if c.Some? then (s, if Owned(s, u, c.value) then Ok(c.value) else Err(NotFound))
    else
      match First(s, u, None, true, s.nextId)
      case Some(first) => (s, Ok(first))
      case None =>
        var (t, error) := Create(s, u, DEFAULT_COURSE_NAME, now);
        (t, if error.Some? then Err(error.value) else Ok(s.nextId))
  }

  /** Deleting an account deletes its courses. */
  function RemoveUser(s: Catalog, u: UserId): Catalog {
    s.(courses := map c | c in s.courses && s.courses[c].user != u :: s.courses[c])
  }

  datatype Call =
    | DoCreate(user: UserId, name: string, now: Time)
    | DoUpdate(user: UserId, course: CourseId, newName: Option<string>, isDefault: Option<bool>)
    | DoDelete(user: UserId, course: CourseId)
    | DoResolve(user: UserId, wanted: Option<CourseId>, now: Time)
    | DoRemoveUser(user: UserId)

  function Step(s: Catalog, call: Call): Catalog {
    match call
    case DoCreate(u, name, now) => Create(s, u, name, now).0
    case DoUpdate(u, c, name, isDefault) => Update(s, u, c, name, isDefault).0
    case DoDelete(u, c) => Delete(s, u, c).0
    case DoResolve(u, c, now) => Resolve(s, u, c, now).0
    case DoRemoveUser(u) => RemoveUser(s, u)
  }

  function Run(s: Catalog, calls: seq<Call>): Catalog
    decreases |calls|
  {
    if calls == [] then s else Run(Step(s, calls[0]), calls[1..])
  }

  const EMPTY: Catalog := Catalog(map[], 0)

  // ---------------------------------------------------------------- one default per user

  predicate AtMostOneDefault(s: Catalog) {
    forall a, b | a in s.courses && b in s.courses && a != b && s.courses[a].user == s.courses[b].user ::
      !(s.courses[a].isDefault && s.courses[b].isDefault)
  }

  predicate HasDefault(s: Catalog, u: UserId) {
    exists d | d in s.courses :: s.courses[d].user == u && s.courses[d].isDefault
  }

  predicate DistinctNames(s: Catalog) {
    forall a, b | a in s.courses && b in s.courses && a != b && s.courses[a].user == s.courses[b].user ::
      s.courses[a].name != s.courses[b].name
  }

  predicate CatalogOk(s: Catalog) {
    && (forall c | c in s.courses :: c < s.nextId && HasDefault(s, s.courses[c].user))
    && AtMostOneDefault(s)
    && DistinctNames(s)
  }

  lemma DefaultStays(s: Catalog, t: Catalog, u: UserId)
    requires HasDefault(s, u)
    requires forall c | c in s.courses :: c in t.courses && t.courses[c].user == s.courses[c].user
                                          && t.courses[c].isDefault == s.courses[c].isDefault
    ensures HasDefault(t, u)
  {
    var d :| d in s.courses && s.courses[d].user == u && s.courses[d].isDefault;
    assert t.courses[d].isDefault;
  }

  lemma FirstCourseIsDefault(s: Catalog, u: UserId, name: string, now: Time)
    requires CatalogOk(s)
    ensures HasDefault(Create(s, u, name, now).0, u) || Create(s, u, name, now).1.Some?
  {
    var t := Create(s, u, name, now).0;
    if Create(s, u, name, now).1.None? {
      if HasCourses(s, u) {
        var k :| k in s.courses && s.courses[k].user == u;
        DefaultStays(s, t, u);
      } else {
        assert t.courses[s.nextId].isDefault;
      }
    }
  }

  lemma CreateKeeps(s: Catalog, u: UserId, name: string, now: Time)
    requires CatalogOk(s)
    ensures CatalogOk(Create(s, u, name, now).0)
  {
    var t := Create(s, u, name, now).0;
    if Create(s, u, name, now).1.None? {
      FirstCourseIsDefault(s, u, name, now);
      forall c | c in t.courses ensures HasDefault(t, t.courses[c].user) {
        if c in s.courses {
          DefaultStays(s, t, s.courses[c].user);
        }
      }
    }
  }

  /** Moving the default of a user from one course to another. */
  lemma MoveDefaultKeeps(s: Catalog, t: Catalog, u: UserId, d: CourseId)
    requires CatalogOk(s) && t.nextId == s.nextId && t.courses.Keys <= s.courses.Keys
    requires forall c | c in t.courses ::
               t.courses[c] == s.courses[c].(isDefault :=
                                              if s.courses[c].user == u then c == d else s.courses[c].isDefault)
    requires forall c | c in s.courses && s.courses[c].user != u :: c in t.courses
    requires Owned(t, u, d)
    ensures CatalogOk(t)
  {
    forall c | c in t.courses ensures HasDefault(t, t.courses[c].user) {
      if t.courses[c].user == u {
        assert t.courses[d].isDefault;
      } else {
        var k :| k in s.courses && s.courses[k].user == s.courses[c].user && s.courses[k].isDefault;
        assert t.courses[k].isDefault;
      }
    }
  }

  lemma RenameKeeps(s: Catalog, u: UserId, c: CourseId, name: string)
    requires CatalogOk(s) && Owned(s, u, c) && !NameInUse(s, u, name, Some(c))
    ensures CatalogOk(s.(courses := s.courses[c := s.courses[c].(name := name)]))
  {
    var t := s.(courses := s.courses[c := s.courses[c].(name := name)]);
    forall k | k in t.courses ensures HasDefault(t, t.courses[k].user) {
      DefaultStays(s, t, s.courses[k].user);
    }
    forall k | k in t.courses && k != c && t.courses[k].user == u ensures t.courses[k].name != name {
      assert s.courses[k].user == u;
    }
  }

  lemma MakeDefaultKeeps(s: Catalog, u: UserId, c: CourseId)
    requires CatalogOk(s) && Owned(s, u, c)
    ensures CatalogOk(ChooseDefault(s, u, c, Some(true)))
  {
    MoveDefaultKeeps(s, ChooseDefault(s, u, c, Some(true)), u, c);
  }

  /** The default of the user is this course, so no other has to give way. */
  lemma HandOverKeeps(s: Catalog, u: UserId, c: CourseId, k: CourseId)
    requires CatalogOk(s) && Owned(s, u, c) && s.courses[c].isDefault && Owned(s, u, k) && k != c
    ensures CatalogOk(SetDefault(SetDefault(s, c, false), k, true))
  {
    var t := SetDefault(SetDefault(s, c, false), k, true);
    forall j | j in t.courses
      ensures t.courses[j] == s.courses[j].(isDefault :=
                                             if s.courses[j].user == u then j == k else s.courses[j].isDefault)
    {
    }
    MoveDefaultKeeps(s, t, u, k);
  }

  lemma ChooseDefaultKeeps(s: Catalog, u: UserId, c: CourseId, isDefault: Option<bool>)
    requires CatalogOk(s) && Owned(s, u, c)
    ensures CatalogOk(ChooseDefault(s, u, c, isDefault))
  {
    if isDefault == Some(true) {
      MakeDefaultKeeps(s, u, c);
    } else if isDefault == Some(false) && s.courses[c].isDefault {
      var replacement := First(s, u, Some(c), false, s.nextId);
      if replacement.Some? {
        HandOverKeeps(s, u, c, replacement.value);
      }
    }
  }

  lemma UpdateKeeps(s: Catalog, u: UserId, c: CourseId, name: Option<string>, isDefault: Option<bool>)
    requires CatalogOk(s)
    ensures CatalogOk(Update(s, u, c, name, isDefault).0)
  {
    if Update(s, u, c, name, isDefault).1.None? {
      if name.Some? && name.value != s.courses[c].name {
        RenameKeeps(s, u, c, name.value);
        ChooseDefaultKeeps(s.(courses := s.courses[c := s.courses[c].(name := name.value)]), u, c, isDefault);
      } else {
        ChooseDefaultKeeps(s, u, c, isDefault);
      }
    }
  }

  /** Deleting a course that is not the default, or the user's last one. */
  lemma RemoveKeeps(s: Catalog, u: UserId, c: CourseId)
    requires CatalogOk(s) && Owned(s, u, c)
    requires !s.courses[c].isDefault || forall k | Owned(s, u, k) :: k == c
    ensures CatalogOk(s.(courses := s.courses - {c}))
  {
    var t := s.(courses := s.courses - {c});
    forall k | k in t.courses ensures HasDefault(t, t.courses[k].user) {
      var d :| d in s.courses && s.courses[d].user == s.courses[k].user && s.courses[d].isDefault;
      assert Owned(s, s.courses[k].user, k);
      assert d in t.courses;
    }
  }

  lemma DeleteKeeps(s: Catalog, u: UserId, c: CourseId)
    requires CatalogOk(s)
    ensures CatalogOk(Delete(s, u, c).0)
  {
    if Owned(s, u, c) {
      var t := s.(courses := s.courses - {c});
      var first := First(t, u, None, false, t.nextId);
      FirstIsFirst(t, u, None, false, t.nextId);
      if s.courses[c].isDefault && first.Some? {
        MoveDefaultKeeps(s, Delete(s, u, c).0, u, first.value);
      } else {
        forall k | Owned(s, u, k) && k != c && s.courses[c].isDefault ensures false {
          assert Owned(t, u, k);
        }
        RemoveKeeps(s, u, c);
      }
    }
  }

  lemma RemoveUserKeeps(s: Catalog, u: UserId)
    requires CatalogOk(s)
    ensures CatalogOk(RemoveUser(s, u))
  {
    var t := RemoveUser(s, u);
    forall k | k in t.courses ensures HasDefault(t, t.courses[k].user) {
      var d :| d in s.courses && s.courses[d].user == s.courses[k].user && s.courses[d].isDefault;
      assert t.courses[d].isDefault;
    }
  }

  lemma StepKeeps(s: Catalog, call: Call)
    requires CatalogOk(s)
    ensures CatalogOk(Step(s, call))
  {
    match call {
      case DoCreate(u, name, now) => CreateKeeps(s, u, name, now);
      case DoUpdate(u, c, name, isDefault) => UpdateKeeps(s, u, c, name, isDefault);
      case DoDelete(u, c) => DeleteKeeps(s, u, c);
      case DoResolve(u, c, now) => CreateKeeps(s, u, DEFAULT_COURSE_NAME, now);
      case DoRemoveUser(u) => RemoveUserKeeps(s, u);
    }
  }

  lemma {:induction false} RunKeeps(s: Catalog, calls: seq<Call>)
    requires CatalogOk(s)
    ensures CatalogOk(Run(s, calls))
    decreases |calls|
  {
    if calls != [] {
      StepKeeps(s, calls[0]);
      RunKeeps(Step(s, calls[0]), calls[1..]);
    }
  }

  /** After any run a user with a course has exactly one default, and resolving no id returns it. */
  lemma DefaultIsResolved(calls: seq<Call>, u: UserId, now: Time) returns (d: CourseId)
    requires HasCourses(Run(EMPTY, calls), u)
    ensures var s := Run(EMPTY, calls);
            && Owned(s, u, d) && s.courses[d].isDefault
            && (forall c | Owned(s, u, c) && s.courses[c].isDefault :: c == d)
            && Resolve(s, u, None, now) == (s, Ok(d))
            && DistinctNames(s)
  {
    var s := Run(EMPTY, calls);
    RunKeeps(EMPTY, calls);
    var c :| c in s.courses && s.courses[c].user == u;
    d :| d in s.courses && s.courses[d].user == u && s.courses[d].isDefault;
    FirstIsFirst(s, u, None, true, s.nextId);
    assert Owned(s, u, d);
  }

  /** Resolving no id never fails: a user without courses gets a first, default one. */
  lemma ResolveAlwaysFinds(calls: seq<Call>, u: UserId, now: Time)
    ensures var (t, found) := Resolve(Run(EMPTY, calls), u, None, now);
            found.Ok? && Owned(t, u, found.value) && t.courses[found.value].isDefault
  {
    var s := Run(EMPTY, calls);
    if HasCourses(s, u) {
      var d := DefaultIsResolved(calls, u, now);
    } else {
      RunKeeps(EMPTY, calls);
    }
  }

  /** Giving up or deleting the default hands it to the user's earliest other course. */
  lemma EarliestTakesOver(calls: seq<Call>, u: UserId, c: CourseId, k: CourseId)
    requires Owned(Run(EMPTY, calls), u, c) && Run(EMPTY, calls).courses[c].isDefault
    requires Owned(Run(EMPTY, calls), u, k) && k != c
    requires forall j: CourseId | Owned(Run(EMPTY, calls), u, j) && j != c && j != k ::
               || Run(EMPTY, calls).courses[k].createdAt < Run(EMPTY, calls).courses[j].createdAt
               || (Run(EMPTY, calls).courses[k].createdAt == Run(EMPTY, calls).courses[j].createdAt && k < j)
    ensures var s := Run(EMPTY, calls);
            && Update(s, u, c, None, Some(false)).0.courses[k].isDefault
            && !Update(s, u, c, None, Some(false)).0.courses[c].isDefault
            && k in Delete(s, u, c).0.courses && Delete(s, u, c).0.courses[k].isDefault
  {
    var s := Run(EMPTY, calls);
    RunKeeps(EMPTY, calls);
    FirstIsFirst(s, u, Some(c), false, s.nextId);
    var t := s.(courses := s.courses - {c});
    FirstIsFirst(t, u, None, false, t.nextId);
    assert Owned(t, u, k);
    var first := First(t, u, None, false, t.nextId);
    assert first == Some(k) by {
      assert Owned(s, u, first.value);
    }
  }

  // ---------------------------------------------------------------- what a call leaves behind

  /** The earliest of the user's courses other than `c`. */
  ghost predicate IsNextInLine(s: Catalog, u: UserId, c: CourseId, k: CourseId) {
    && Owned(s, u, k) && k != c
    && forall j: CourseId | Owned(s, u, j) && j != c && j != k ::
         || s.courses[k].createdAt < s.courses[j].createdAt
         || (s.courses[k].createdAt == s.courses[j].createdAt && k < j)
  }

  /** Courses of other users are as they were, and these keep their name and age. */
  predicate OnlyMovesDefault(s: Catalog, t: Catalog, u: UserId, c: CourseId) {
    forall k | k in t.courses && k != c ::
      && k in s.courses
      && (if s.courses[k].user == u then t.courses[k].(isDefault := s.courses[k].isDefault) == s.courses[k]
          else t.courses[k] == s.courses[k])
  }

  lemma NextInLineIsFirst(s: Catalog, t: Catalog, u: UserId, c: CourseId, k: CourseId, except: Option<CourseId>)
    requires CatalogOk(s) && IsNextInLine(s, u, c, k) && t.nextId == s.nextId
    requires (t.courses == s.courses && except == Some(c)) || (t.courses == s.courses - {c} && except == None)
    ensures First(t, u, except, false, t.nextId) == Some(k)
  {
    FirstIsFirst(t, u, except, false, t.nextId);
    assert Owned(t, u, k);
    var first := First(t, u, except, false, t.nextId);
    assert Owned(s, u, first.value) && first.value != c;
  }

  /** What an update leaves: the new name, the requested default, and a successor for a default given up. */
  ghost predicate Updates(s: Catalog, t: Catalog, u: UserId, c: CourseId, name: Option<string>,
                          isDefault: Option<bool>, error: Option<Error>) {
    && (error == Some(NameTaken) <==> Owned(s, u, c) && name.Some? && NameInUse(s, u, name.value, Some(c)))
    && (error.None? ==>
          && t.courses.Keys == s.courses.Keys && OnlyMovesDefault(s, t, u, c)
          && Owned(t, u, c) && t.courses[c].name == name.GetOr(s.courses[c].name)
          && (isDefault == Some(true) ==> t.courses[c].isDefault)
          && (isDefault == None ==> forall k | k in s.courses :: t.courses[k].isDefault == s.courses[k].isDefault)
          && (isDefault == Some(false) && s.courses[c].isDefault ==> forall k | IsNextInLine(s, u, c, k) ::
                t.courses[k].isDefault && !t.courses[c].isDefault))
  }

  /** What setting or giving up the default leaves. */
  ghost predicate Chosen(s: Catalog, t: Catalog, u: UserId, c: CourseId, isDefault: Option<bool>)
    requires c in s.courses
  {
    && t.courses.Keys == s.courses.Keys && OnlyMovesDefault(s, t, u, c)
    && t.courses[c].(isDefault := s.courses[c].isDefault) == s.courses[c]
    && (isDefault == Some(true) ==> t.courses[c].isDefault)
    && (isDefault == None ==> t == s)
    && (isDefault == Some(false) && s.courses[c].isDefault ==> forall k | IsNextInLine(s, u, c, k) ::
          t.courses[k].isDefault && !t.courses[c].isDefault)
  }

  lemma ChooseIsChosen(s: Catalog, u: UserId, c: CourseId, isDefault: Option<bool>)
    requires CatalogOk(s) && Owned(s, u, c)
    ensures Chosen(s, ChooseDefault(s, u, c, isDefault), u, c, isDefault)
  {
    forall k: CourseId | IsNextInLine(s, u, c, k) ensures First(s, u, Some(c), false, s.nextId) == Some(k) {
      NextInLineIsFirst(s, s, u, c, k, Some(c));
    }
  }

  lemma RenamedNextInLine(s: Catalog, t: Catalog, u: UserId, c: CourseId, name: string)
    requires Owned(s, u, c) && t == s.(courses := s.courses[c := s.courses[c].(name := name)])
    ensures forall k | IsNextInLine(s, u, c, k) :: IsNextInLine(t, u, c, k)
  {
    forall k: CourseId, j: CourseId | IsNextInLine(s, u, c, k) && Owned(t, u, j) && j != c && j != k
      ensures Before(t, k, j, false)
    {
      assert Owned(s, u, j);
    }
  }

  lemma RenamedUpdates(s: Catalog, t: Catalog, v: Catalog, u: UserId, c: CourseId, name: string,
                       isDefault: Option<bool>)
    requires Owned(s, u, c) && t == s.(courses := s.courses[c := s.courses[c].(name := name)])
    requires !NameInUse(s, u, name, Some(c)) && Chosen(t, v, u, c, isDefault)
    ensures Updates(s, v, u, c, Some(name), isDefault, None)
  {
    RenamedNextInLine(s, t, u, c, name);
  }

  lemma SameNameIsFree(s: Catalog, u: UserId, c: CourseId)
    requires CatalogOk(s) && Owned(s, u, c)
    ensures !NameInUse(s, u, s.courses[c].name, Some(c))
  {
  }

  lemma UpdateUpdates(s: Catalog, u: UserId, c: CourseId, name: Option<string>, isDefault: Option<bool>)
    requires CatalogOk(s)
    ensures var (t, error) := Update(s, u, c, name, isDefault); Updates(s, t, u, c, name, isDefault, error)
  {
    if Owned(s, u, c) {
      SameNameIsFree(s, u, c);
      if name.Some? && name.value != s.courses[c].name {
        if !NameInUse(s, u, name.value, Some(c)) {
          var t := s.(courses := s.courses[c := s.courses[c].(name := name.value)]);
          RenameKeeps(s, u, c, name.value);
          ChooseIsChosen(t, u, c, isDefault);
          RenamedUpdates(s, t, ChooseDefault(t, u, c, isDefault), u, c, name.value, isDefault);
        }
      } else {
        ChooseIsChosen(s, u, c, isDefault);
      }
    }
  }

  /** What a deletion leaves: every other course, and a default taken over by the next in line. */
  ghost predicate Deletes(s: Catalog, t: Catalog, u: UserId, c: CourseId)
    requires c in s.courses
  {
    && t.courses.Keys == s.courses.Keys - {c} && OnlyMovesDefault(s, t, u, c)
    && (HasCourses(t, u) ==> HasDefault(t, u))
    && (!s.courses[c].isDefault ==> t.courses == s.courses - {c})
    && (s.courses[c].isDefault ==> forall k | IsNextInLine(s, u, c, k) :: t.courses[k].isDefault)
  }

  lemma SuccessorTakesOver(s: Catalog, u: UserId, c: CourseId)
    requires CatalogOk(s) && Owned(s, u, c) && s.courses[c].isDefault
    ensures forall k: CourseId | IsNextInLine(s, u, c, k) ::
              k in Delete(s, u, c).0.courses && Delete(s, u, c).0.courses[k].isDefault
  {
    var t := s.(courses := s.courses - {c});
    forall k: CourseId | IsNextInLine(s, u, c, k) ensures First(t, u, None, false, t.nextId) == Some(k) {
      NextInLineIsFirst(s, t, u, c, k, None);
    }
  }

  lemma DeleteFrame(s: Catalog, u: UserId, c: CourseId)
    requires Owned(s, u, c)
    ensures var t := Delete(s, u, c).0;
            && t.courses.Keys == s.courses.Keys - {c} && OnlyMovesDefault(s, t, u, c)
            && (!s.courses[c].isDefault ==> t.courses == s.courses - {c})
  {
  }

  lemma DeleteDeletes(s: Catalog, u: UserId, c: CourseId)
    requires CatalogOk(s) && Owned(s, u, c)
    ensures Deletes(s, Delete(s, u, c).0, u, c)
  {
    DeleteFrame(s, u, c);
    DefaultIsLeft(s, Delete(s, u, c).0, u, c);
    if s.courses[c].isDefault {
      SuccessorTakesOver(s, u, c);
    }
  }

  lemma DefaultIsLeft(s: Catalog, t: Catalog, u: UserId, c: CourseId)
    requires CatalogOk(s) && Owned(s, u, c) && t == Delete(s, u, c).0
    ensures HasCourses(t, u) ==> HasDefault(t, u)
  {
    DeleteKeeps(s, u, c);
    if HasCourses(t, u) {
      var k :| k in t.courses && t.courses[k].user == u;
      assert HasDefault(t, t.courses[k].user);
    }
  }

  lemma ResolveResolves(s: Catalog, u: UserId, now: Time)
    requires CatalogOk(s)
    ensures var (t, found) := Resolve(s, u, None, now);
            && CatalogOk(t) && found.Ok? && Owned(t, u, found.value) && t.courses[found.value].isDefault
            && (HasCourses(s, u) ==> t == s)
  {
    CreateKeeps(s, u, DEFAULT_COURSE_NAME, now);
    if HasCourses(s, u) {
      var c :| c in s.courses && s.courses[c].user == u;
      var d :| d in s.courses && s.courses[d].user == u && s.courses[d].isDefault;
      FirstIsFirst(s, u, None, true, s.nextId);
      assert Owned(s, u, d);
    }
  }

  // ---------------------------------------------------------------- the service

  class CourseService {
    var courses: map<CourseId, Course>
    var nextId: CourseId

    constructor ()
      ensures Snapshot() == EMPTY
    {
      courses, nextId := map[], 0;
    }

    function Snapshot(): Catalog
      reads this
    {
      Catalog(courses, nextId)
    }

    predicate Valid()
      reads this
    {
      CatalogOk(Snapshot())
    }

    method CreateCourse(u: UserId, name: string, now: Time) returns (error: Option<Error>)
      modifies this
      ensures (Snapshot(), error) == Create(old(Snapshot()), u, name, now)
      ensures old(Valid()) ==> Valid()
      ensures error.None? <==> !NameInUse(old(Snapshot()), u, name, None)
      ensures error.Some? ==> Snapshot() == old(Snapshot())
      ensures error.None? ==>
                && nextId == old(nextId) + 1 && Owned(Snapshot(), u, old(nextId))
                && courses == old(courses)[old(nextId) := Course(u, name, !HasCourses(old(Snapshot()), u), now)]
      ensures old(Valid()) ==> forall k | k in old(courses) :: k in courses && courses[k] == old(courses)[k]
    {
      if Valid() {
        CreateKeeps(Snapshot(), u, name, now);
      }
      if NameInUse(Snapshot(), u, name, None) {
        return Some(NameTaken);
      }
      var isFirst := !(exists c | c in courses :: courses[c].user == u);
      var c := nextId;
      nextId := c + 1;
      courses := courses[c := Course(u, name, isFirst, now)];
      return None;
    }

    /** ORDER BY with a limit of one, as a scan. */
    method FindFirst(u: UserId, except: Option<CourseId>, defaultFirst: bool) returns (first: Option<CourseId>)
      ensures first == First(Snapshot(), u, except, defaultFirst, nextId)
    {
      first := None;
      for n := 0 to nextId
        invariant first == First(Snapshot(), u, except, defaultFirst, n)
      {
        if n in courses && courses[n].user == u && except != Some(n) {
          if first.None? || Before(Snapshot(), n, first.value, defaultFirst) {
            first := Some(n);
          }
        }
      }
    }

    method UpdateCourse(u: UserId, c: CourseId, name: Option<string>, isDefault: Option<bool>)
      returns (error: Option<Error>)
      modifies this
      ensures (Snapshot(), error) == Update(old(Snapshot()), u, c, name, isDefault)
      ensures old(Valid()) ==> Valid()
      ensures error == Some(NotFound) <==> !Owned(old(Snapshot()), u, c)
      ensures error.Some? ==> Snapshot() == old(Snapshot())
      ensures old(Valid()) ==> Updates(old(Snapshot()), Snapshot(), u, c, name, isDefault, error)
    {
      if Valid() {
        UpdateKeeps(Snapshot(), u, c, name, isDefault);
        UpdateUpdates(Snapshot(), u, c, name, isDefault);
      }
      if c !in courses || courses[c].user != u {
        return Some(NotFound);
      }
      if name.Some? && name.value != courses[c].name {
        if NameInUse(Snapshot(), u, name.value, Some(c)) {
          return Some(NameTaken);
        }
        courses := courses[c := courses[c].(name := name.value)];
      }
      MoveDefault(u, c, isDefault);
      return None;
    }

    /** Makes the course the default, or hands the default on if there is a course to take it. */
    method MoveDefault(u: UserId, c: CourseId, isDefault: Option<bool>)
      requires c in courses
      modifies this
      ensures Snapshot() == ChooseDefault(old(Snapshot()), u, c, isDefault)
    {
      if isDefault == Some(true) {
        courses := map k | k in courses ::
          if courses[k].user == u && k != c then courses[k].(isDefault := false) else courses[k];
        courses := courses[c := courses[c].(isDefault := true)];
      } else if isDefault == Some(false) && courses[c].isDefault {
        var replacement := FindFirst(u, Some(c), false);
        if replacement.Some? {
          courses := courses[c := courses[c].(isDefault := false)];
          courses := courses[replacement.value := courses[replacement.value].(isDefault := true)];
        }
      }
    }

    method DeleteCourse(u: UserId, c: CourseId) returns (error: Option<Error>)
      modifies this
      ensures (Snapshot(), error) == Delete(old(Snapshot()), u, c)
      ensures old(Valid()) ==> Valid()
      ensures error.None? <==> Owned(old(Snapshot()), u, c)
      ensures error.Some? ==> Snapshot() == old(Snapshot())
      ensures error.None? && old(Valid()) ==> Deletes(old(Snapshot()), Snapshot(), u, c)
    {
      if Valid() {
        DeleteKeeps(Snapshot(), u, c);
        if Owned(Snapshot(), u, c) {
          DeleteDeletes(Snapshot(), u, c);
        }
      }
      if c !in courses || courses[c].user != u {
        return Some(NotFound);
      }
      var wasDefault := courses[c].isDefault;
      courses := courses - {c};
      if wasDefault {
        var replacement := FindFirst(u, None, false);
        if replacement.Some? {
          courses := courses[replacement.value := courses[replacement.value].(isDefault := true)];
        }
      }
      return None;
    }

    method ResolveCourse(u: UserId, c: Option<CourseId>, now: Time) returns (found: Result<CourseId, Error>)
      modifies this
      ensures (Snapshot(), found) == Resolve(old(Snapshot()), u, c, now)
      ensures old(Valid()) ==> Valid()
      ensures c.Some? ==> found == if Owned(old(Snapshot()), u, c.value) then Ok(c.value) else Err(NotFound)
      ensures c.None? && old(Valid()) ==>
                found.Ok? && Owned(Snapshot(), u, found.value) && courses[found.value].isDefault
      ensures c.Some? || (HasCourses(old(Snapshot()), u) && old(Valid())) ==> Snapshot() == old(Snapshot())
    {
      if Valid() {
        ResolveResolves(Snapshot(), u, now);
      }
      if c.Some? {
        return if c.value in courses && courses[c.value].user == u then Ok(c.value) else Err(NotFound);
      }
      var first := FindFirst(u, None, true);
      if first.Some? {
        return Ok(first.value);
      }
      var created := nextId;
      var error := CreateCourse(u, DEFAULT_COURSE_NAME, now);
      return if error.Some? then Err(error.value) else Ok(created);
    }
  }
}
