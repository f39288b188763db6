// The manifest validator (scripts/validate-manifest.ts), for a manifest that already fits the schema. An optional list
// that is absent reads as empty.
module Manifest {
  import opened Json

  const SLUG := "cpanel-whm-manager"
  const TABLE_PREFIX := "ext_hosting_"
  const API_ROOT := "/api/extensions/"
  const NAMESPACE := "hosting_control"
  const ENV_KEY := "EXT_HOSTING_ENCRYPTION_KEY"

  datatype Action = Action(key: string, path: string, permission: Option<string>)

  datatype Section = Section(key: string, permission: string, path: string, actions: seq<Action>)

  datatype View = View(key: string, permission: string, path: string, actions: seq<Action>, sections: seq<Section>)

  datatype Route = Route(path: string, requiredPermissions: seq<string>)

  datatype EnvVar = EnvVar(name: string, required: bool, isSecret: bool)

  datatype Manifest = Manifest(
    slug: string, tablePrefix: string, apiPrefix: string, permissions: seq<string>,
    routes: seq<Route>, views: seq<View>, env: seq<EnvVar>)

  // Where an action stands.
  datatype Place = InView(view: string) | InSection(view: string, section: string)

  datatype Problem =
    | SlugWrong
    | TablePrefixWrong
    | ApiPrefixOutside
    | NotNamespaced(permission: string)
    | RouteUndeclared(path: string, permission: string)
    | ActionOutside(place: Place, action: string)
    | ActionUndeclared(place: Place, action: string, permission: string)
    | ViewUndeclared(view: string, permission: string)
    | ViewOutside(view: string)
    | SectionUndeclared(view: string, section: string, permission: string)
    | SectionOutside(view: string, section: string)
    | EnvKeyMissing
    | EnvKeyUnprotected
    | SecretExposed(name: string)

  // ----- The texts -----

  predicate StartsWith(s: string, prefix: string) {
    |prefix| <= |s| && s[..|prefix|] == prefix
  }

  predicate WordChar(ch: char) {
    'a' <= ch <= 'z' || '0' <= ch <= '9' || ch == '_'
  }

  // The repeated group of the permission pattern: any number of dots, each followed by a nonempty word.
  predicate Segments(s: string)
    decreases |s|
  {
    s == "" ||
    (s[0] == '.' && exists n :: 1 < n <= |s| && Word(s[1..n]) && Segments(s[n..]))
  }

  predicate Word(s: string) {
    s != "" && forall i :: 0 <= i < |s| ==> WordChar(s[i])
  }

  predicate Namespaced(permission: string) {
    StartsWith(permission, NAMESPACE) && Segments(permission[|NAMESPACE|..])
  }

  predicate LooksExposed(name: string) {
    var n := Lower(name);
    Contains(n, "frontend") || Contains(n, "public") || Contains(n, "vite_")
  }

  // ----- What a manifest must satisfy -----

  function GatewayPrefix(m: Manifest): string {
    if m.apiPrefix != "" && m.apiPrefix[0] == '/' then m.apiPrefix[1..] else m.apiPrefix
  }

  predicate Declared(m: Manifest, permission: string) { permission in m.permissions }

  predicate Under(m: Manifest, path: string) { StartsWith(path, GatewayPrefix(m)) }

  predicate ActionConforms(m: Manifest, a: Action) {
    Under(m, a.path) && (a.permission.Some? && a.permission.value != "" ==> Declared(m, a.permission.value))
  }

  predicate SectionConforms(m: Manifest, s: Section) {
    Declared(m, s.permission) && Under(m, s.path) && forall a :: a in s.actions ==> ActionConforms(m, a)
  }

  predicate ViewConforms(m: Manifest, v: View) {
    && Declared(m, v.permission) && Under(m, v.path)
    && (forall a :: a in v.actions ==> ActionConforms(m, a))
    && (forall s :: s in v.sections ==> SectionConforms(m, s))
  }

  predicate RouteConforms(m: Manifest, r: Route) {
    forall p :: p in r.requiredPermissions ==> Declared(m, p)
  }

  // The first variable of that name is the one that counts.
  function FirstNamed(env: seq<EnvVar>, name: string): (found: Option<EnvVar>)
    ensures found.Some? ==> found.value in env && found.value.name == name
    ensures found == None <==> forall e :: e in env ==> e.name != name
  {
    if env == [] then None
    else if env[0].name == name then Some(env[0])
    else FirstNamed(env[1..], name)
  }

  predicate KeyProtected(env: seq<EnvVar>) {
    var e := FirstNamed(env, ENV_KEY);
    e.Some? && e.value.required && e.value.isSecret
  }

  predicate Conforms(m: Manifest) {
    && m.slug == SLUG && m.tablePrefix == TABLE_PREFIX && StartsWith(m.apiPrefix, API_ROOT + m.slug)
    && (forall p :: p in m.permissions ==> Namespaced(p))
    && (forall r :: r in m.routes ==> RouteConforms(m, r))
    && (forall v :: v in m.views ==> ViewConforms(m, v))
    && KeyProtected(m.env)
    && (forall e :: e in m.env && e.isSecret ==> !LooksExposed(e.name))
  }

  // ----- What each problem complains about -----

  predicate ActionViolates(m: Manifest, place: Place, a: Action, p: Problem) {
    || (p == ActionOutside(place, a.key) && !Under(m, a.path))
    || (a.permission.Some? && a.permission.value != "" && !Declared(m, a.permission.value) &&
        p == ActionUndeclared(place, a.key, a.permission.value))
  }

  predicate ActionsViolate(m: Manifest, place: Place, actions: seq<Action>, p: Problem) {
    exists a :: a in actions && ActionViolates(m, place, a, p)
  }

  predicate SectionViolates(m: Manifest, view: string, s: Section, p: Problem) {
    || (p == SectionUndeclared(view, s.key, s.permission) && !Declared(m, s.permission))
    || (p == SectionOutside(view, s.key) && !Under(m, s.path))
    || ActionsViolate(m, InSection(view, s.key), s.actions, p)
  }

  predicate SectionsViolate(m: Manifest, view: string, sections: seq<Section>, p: Problem) {
    exists s :: s in sections && SectionViolates(m, view, s, p)
  }

  predicate ViewViolates(m: Manifest, v: View, p: Problem) {
    || (p == ViewUndeclared(v.key, v.permission) && !Declared(m, v.permission))
    || (p == ViewOutside(v.key) && !Under(m, v.path))
    || ActionsViolate(m, InView(v.key), v.actions, p)
    || SectionsViolate(m, v.key, v.sections, p)
  }

  predicate ViewsViolate(m: Manifest, views: seq<View>, p: Problem) {
    exists v :: v in views && ViewViolates(m, v, p)
  }

  predicate RouteViolates(m: Manifest, r: Route, p: Problem) {
    p.RouteUndeclared? && p.path == r.path && p.permission in r.requiredPermissions && !Declared(m, p.permission)
  }

  predicate RoutesViolate(m: Manifest, routes: seq<Route>, p: Problem) {
    exists r :: r in routes && RouteViolates(m, r, p)
  }

  predicate EnvViolates(env: seq<EnvVar>, p: Problem) {
    var key := FirstNamed(env, ENV_KEY);
    || (p == EnvKeyMissing && key == None)
    || (p == EnvKeyUnprotected && key.Some? && !KeyProtected(env))
    || (p.SecretExposed? && exists e :: e in env && e.isSecret && LooksExposed(e.name) && e.name == p.name)
  }

  predicate Violated(m: Manifest, p: Problem) {
    || (p == SlugWrong && m.slug != SLUG)
    || (p == TablePrefixWrong && m.tablePrefix != TABLE_PREFIX)
    || (p == ApiPrefixOutside && !StartsWith(m.apiPrefix, API_ROOT + m.slug))
    || (p.NotNamespaced? && p.permission in m.permissions && !Namespaced(p.permission))
    || RoutesViolate(m, m.routes, p)
    || ViewsViolate(m, m.views, p)
    || EnvViolates(m.env, p)
  }

  lemma ActionFaultless(m: Manifest, place: Place, actions: seq<Action>, a: Action)
    requires a in actions && forall p :: !ActionsViolate(m, place, actions, p)
    ensures ActionConforms(m, a)
  {
    assert !ActionViolates(m, place, a, ActionOutside(place, a.key)) by {
      assert !ActionsViolate(m, place, actions, ActionOutside(place, a.key));
    }
    if a.permission.Some? {
      var p := ActionUndeclared(place, a.key, a.permission.value);
      assert !ActionViolates(m, place, a, p) by { assert !ActionsViolate(m, place, actions, p); }
    }
  }

  lemma SectionFaultless(m: Manifest, view: string, s: Section)
    requires forall p :: !SectionViolates(m, view, s, p)
    ensures SectionConforms(m, s)
  {
    assert !SectionViolates(m, view, s, SectionUndeclared(view, s.key, s.permission));
    assert !SectionViolates(m, view, s, SectionOutside(view, s.key));
    forall a | a in s.actions ensures ActionConforms(m, a) {
      forall p ensures !ActionsViolate(m, InSection(view, s.key), s.actions, p) {
        assert !SectionViolates(m, view, s, p);
      }
      ActionFaultless(m, InSection(view, s.key), s.actions, a);
    }
  }

  lemma ViewFaultless(m: Manifest, v: View)
    requires forall p :: !ViewViolates(m, v, p)
    ensures ViewConforms(m, v)
  {
    assert !ViewViolates(m, v, ViewUndeclared(v.key, v.permission));
    assert !ViewViolates(m, v, ViewOutside(v.key));
    forall a | a in v.actions ensures ActionConforms(m, a) {
      forall p ensures !ActionsViolate(m, InView(v.key), v.actions, p) { assert !ViewViolates(m, v, p); }
      ActionFaultless(m, InView(v.key), v.actions, a);
    }
    forall s | s in v.sections ensures SectionConforms(m, s) {
      forall p ensures !SectionViolates(m, v.key, s, p) {
        assert !ViewViolates(m, v, p);
        assert SectionViolates(m, v.key, s, p) ==> SectionsViolate(m, v.key, v.sections, p);
      }
      SectionFaultless(m, v.key, s);
    }
  }

  lemma EnvFaultless(env: seq<EnvVar>)
    requires forall p :: !EnvViolates(env, p)
    ensures KeyProtected(env) && forall e :: e in env && e.isSecret ==> !LooksExposed(e.name)
  {
    assert !EnvViolates(env, EnvKeyMissing) && !EnvViolates(env, EnvKeyUnprotected);
    forall e | e in env && e.isSecret ensures !LooksExposed(e.name) {
      assert !EnvViolates(env, SecretExposed(e.name));
    }
  }

  lemma Faultless(m: Manifest)
    requires forall p :: !Violated(m, p)
    ensures Conforms(m)
  {
    assert !Violated(m, SlugWrong) && !Violated(m, TablePrefixWrong) && !Violated(m, ApiPrefixOutside);
    forall permission | permission in m.permissions ensures Namespaced(permission) {
      assert !Violated(m, NotNamespaced(permission));
    }
    forall r | r in m.routes ensures RouteConforms(m, r) {
      forall permission | permission in r.requiredPermissions ensures Declared(m, permission) {
        var p := RouteUndeclared(r.path, permission);
        assert !Violated(m, p);
        assert RouteViolates(m, r, p) ==> RoutesViolate(m, m.routes, p);
      }
    }
    forall v | v in m.views ensures ViewConforms(m, v) {
      forall p ensures !ViewViolates(m, v, p) {
        assert !Violated(m, p);
        assert ViewViolates(m, v, p) ==> ViewsViolate(m, m.views, p);
      }
      ViewFaultless(m, v);
    }
    forall p ensures !EnvViolates(m.env, p) { assert !Violated(m, p); }
    EnvFaultless(m.env);
  }

  lemma ConformingSection(m: Manifest, view: string, s: Section, p: Problem)
    requires SectionConforms(m, s)
    ensures !SectionViolates(m, view, s, p)
  {
  }

  lemma ConformingView(m: Manifest, v: View, p: Problem)
    requires ViewConforms(m, v)
    ensures !ViewViolates(m, v, p)
  {
    forall s | s in v.sections ensures !SectionViolates(m, v.key, s, p) { ConformingSection(m, v.key, s, p); }
  }

  // A manifest conforms exactly when there is nothing to complain about.
  lemma ConformsExactly(m: Manifest)
    ensures Conforms(m) <==> forall p :: !Violated(m, p)
  {
    if Conforms(m) {
      forall p ensures !Violated(m, p) {
        forall v | v in m.views ensures !ViewViolates(m, v, p) { ConformingView(m, v, p); }
        forall r | r in m.routes ensures !RouteViolates(m, r, p) { assert RouteConforms(m, r); }
      }
    } else if forall p :: !Violated(m, p) {
      Faultless(m);
    }
  }

  // ----- The same, manifest-wide and letter by letter -----

  // Some view, section or action has this path.
  ghost predicate Refers(m: Manifest, path: string) {
    exists v :: v in m.views && ViewRefers(v, path)
  }

  ghost predicate ViewRefers(v: View, path: string) {
    || v.path == path || (exists a :: a in v.actions && a.path == path)
    || exists s :: s in v.sections && (s.path == path || exists a :: a in s.actions && a.path == path)
  }

  // Some route, view, section or action asks for this permission.
  ghost predicate Asks(m: Manifest, permission: string) {
    || (exists r :: r in m.routes && permission in r.requiredPermissions)
    || (exists v :: v in m.views && ViewAsks(v, permission))
  }

  predicate ActionAsks(a: Action, permission: string) { a.permission == Some(permission) && permission != "" }

  ghost predicate ViewAsks(v: View, permission: string) {
    || v.permission == permission || (exists a :: a in v.actions && ActionAsks(a, permission))
    || exists s ::
         s in v.sections && (s.permission == permission || exists a :: a in s.actions && ActionAsks(a, permission))
  }

  // The first variable of this name is required and secret.
  ghost predicate Protects(env: seq<EnvVar>, name: string) {
    exists i :: 0 <= i < |env| && env[i] == EnvVar(name, true, true) && forall j :: 0 <= j < i ==> env[j].name != name
  }

  ghost predicate Public(name: string) {
    Spelled(name, "frontend") || Spelled(name, "public") || Spelled(name, "vite_")
  }

  ghost predicate Acceptable(m: Manifest) {
    && m.slug == "cpanel-whm-manager" && m.tablePrefix == "ext_hosting_"
    && (exists rest :: m.apiPrefix == "/api/extensions/cpanel-whm-manager" + rest)
    && (forall p :: p in m.permissions ==> exists rest :: p == "hosting_control" + rest && Dotted(rest))
    && (forall path :: Refers(m, path) ==> exists rest :: "/" + path == m.apiPrefix + rest)
    && (forall p :: Asks(m, p) ==> p in m.permissions)
    && Protects(m.env, "EXT_HOSTING_ENCRYPTION_KEY")
    && (forall e :: e in m.env && e.isSecret ==> !Public(e.name))
  }

  lemma BeginsExactly(s: string, prefix: string)
    ensures StartsWith(s, prefix) <==> exists rest :: s == prefix + rest
  {
    if StartsWith(s, prefix) { assert s == prefix + s[|prefix|..]; }
  }

  // One leading slash is taken off the prefix.
  lemma PrefixExactly(m: Manifest, path: string)
    ensures m.apiPrefix == "/" + GatewayPrefix(m) ||
            (m.apiPrefix == GatewayPrefix(m) && (m.apiPrefix == "" || m.apiPrefix[0] != '/'))
    ensures m.apiPrefix != "" && m.apiPrefix[0] == '/' ==>
              (Under(m, path) <==> exists rest :: "/" + path == m.apiPrefix + rest)
  {
    if m.apiPrefix != "" && m.apiPrefix[0] == '/' {
      var prefix := m.apiPrefix[1..];
      assert m.apiPrefix == "/" + prefix;
      BeginsExactly(path, prefix);
      forall rest ensures "/" + path == m.apiPrefix + rest <==> path == prefix + rest {
        if "/" + path == m.apiPrefix + rest {
          assert path == ("/" + path)[1..] == (m.apiPrefix + rest)[1..] == prefix + rest;
        }
        assert m.apiPrefix + rest == "/" + (prefix + rest);
      }
    }
  }

  lemma ExposedExactly(name: string)
    ensures LooksExposed(name) <==> Public(name)
  {
    ContainsSpelled(name, "frontend");
    ContainsSpelled(name, "public");
    ContainsSpelled(name, "vite_");
    hide Contains, Spelled, Lower;
  }

  lemma NamespacedExactly(p: string)
    ensures Namespaced(p) <==> exists rest :: p == "hosting_control" + rest && Dotted(rest)
  {
    hide Segments, Dotted;
    if Namespaced(p) {
      SegmentsExactly(p[|NAMESPACE|..]);
      assert p == "hosting_control" + p[|NAMESPACE|..];
    }
    if rest :| p == "hosting_control" + rest && Dotted(rest) {
      SegmentsExactly(rest);
      assert p[|NAMESPACE|..] == rest;
    }
  }

  lemma {:induction false} ProtectsExactly(env: seq<EnvVar>)
    ensures KeyProtected(env) <==> Protects(env, "EXT_HOSTING_ENCRYPTION_KEY")
  {
    if env != [] && env[0].name != ENV_KEY {
      var rest := env[1..];
      ProtectsExactly(rest);
      if i :| 0 <= i < |rest| && rest[i] == EnvVar(ENV_KEY, true, true) && forall j :: 0 <= j < i ==>
        rest[j].name != ENV_KEY {
        assert env[i + 1] == rest[i];
        forall j | 0 <= j < i + 1 ensures env[j].name != ENV_KEY { if j > 0 { assert env[j] == rest[j - 1]; } }
      }
      if i :| 0 <= i < |env| && env[i] == EnvVar(ENV_KEY, true, true) && forall j :: 0 <= j < i ==>
        env[j].name != ENV_KEY {
        assert rest[i - 1] == env[i];
        forall j | 0 <= j < i - 1 ensures rest[j].name != ENV_KEY { assert env[j + 1] == rest[j]; }
      }
    }
  }

  // The views are in order: as the clauses say, and as all the paths and permissions in them say.
  lemma ViewExactly(m: Manifest, v: View)
    ensures ViewConforms(m, v) <==>
            (forall path :: ViewRefers(v, path) ==> Under(m, path)) && (forall p :: ViewAsks(v, p) ==> Declared(m, p))
  {
    hide Under, Declared;
    if (forall path :: ViewRefers(v, path) ==> Under(m, path)) && (forall p :: ViewAsks(v, p) ==> Declared(m, p)) {
      assert ViewRefers(v, v.path) && ViewAsks(v, v.permission);
      forall a | a in v.actions ensures ActionConforms(m, a) {
        assert ViewRefers(v, a.path);
        if a.permission.Some? { assert ActionAsks(a, a.permission.value) ==> ViewAsks(v, a.permission.value); }
      }
      forall s | s in v.sections ensures SectionConforms(m, s) {
        assert ViewRefers(v, s.path) && ViewAsks(v, s.permission);
        forall a | a in s.actions ensures ActionConforms(m, a) {
          assert ViewRefers(v, a.path);
          if a.permission.Some? { assert ActionAsks(a, a.permission.value) ==> ViewAsks(v, a.permission.value); }
        }
      }
    }
    if ViewConforms(m, v) {
      forall path | ViewRefers(v, path) ensures Under(m, path) { ConformingPaths(m, v, path); }
      forall p | ViewAsks(v, p) ensures Declared(m, p) { ConformingPermissions(m, v, p); }
    }
  }

  lemma ConformingPaths(m: Manifest, v: View, path: string)
    requires ViewConforms(m, v) && ViewRefers(v, path)
    ensures Under(m, path)
  {
    hide Under, Declared;
    if a :| a in v.actions && a.path == path { assert ActionConforms(m, a); }
    if s :| s in v.sections && (s.path == path || exists a :: a in s.actions && a.path == path) {
      assert SectionConforms(m, s);
      if a :| a in s.actions && a.path == path { assert ActionConforms(m, a); }
    }
  }

  lemma ConformingPermissions(m: Manifest, v: View, p: string)
    requires ViewConforms(m, v) && ViewAsks(v, p)
    ensures Declared(m, p)
  {
    hide Under, Declared;
    if a :| a in v.actions && ActionAsks(a, p) { assert ActionConforms(m, a); }
    if s :| s in v.sections && (s.permission == p || exists a :: a in s.actions && ActionAsks(a, p)) {
      assert SectionConforms(m, s);
      if a :| a in s.actions && ActionAsks(a, p) { assert ActionConforms(m, a); }
    }
  }

  lemma AllViewsExactly(m: Manifest)
    ensures (forall v :: v in m.views ==> ViewConforms(m, v)) &&
            (forall r :: r in m.routes ==> RouteConforms(m, r)) <==>
            (forall path :: Refers(m, path) ==> Under(m, path)) && (forall p :: Asks(m, p) ==> p in m.permissions)
  {
    forall v | v in m.views
      ensures ViewConforms(m, v) <==>
              (forall path :: ViewRefers(v, path) ==> Under(m, path)) && (forall p :: ViewAsks(v, p) ==> Declared(m, p))
    {
      ViewExactly(m, v);
    }
    hide Under, ViewConforms, ViewRefers, ViewAsks;
    if (forall path :: Refers(m, path) ==> Under(m, path)) && (forall p :: Asks(m, p) ==> p in m.permissions) {
      forall v | v in m.views ensures ViewConforms(m, v) {
        forall path | ViewRefers(v, path) ensures Under(m, path) { assert Refers(m, path); }
        forall p | ViewAsks(v, p) ensures Declared(m, p) { assert Asks(m, p); }
      }
      forall r, p | r in m.routes && p in r.requiredPermissions ensures Declared(m, p) { assert Asks(m, p); }
    }
  }

  lemma RootExactly(m: Manifest)
    requires m.slug == "cpanel-whm-manager"
    ensures StartsWith(m.apiPrefix, API_ROOT + m.slug) <==>
            exists rest :: m.apiPrefix == "/api/extensions/cpanel-whm-manager" + rest
  {
    var root := "/api/extensions/cpanel-whm-manager";
    assert API_ROOT + m.slug == root;
    hide StartsWith;
    BeginsExactly(m.apiPrefix, root);
  }

  // A manifest conforms exactly when it is acceptable.
  lemma AcceptsExactly(m: Manifest)
    ensures Conforms(m) <==> Acceptable(m)
  {
    AllViewsExactly(m);
    ProtectsExactly(m.env);
    forall p | p in m.permissions
      ensures Namespaced(p) <==> exists rest :: p == "hosting_control" + rest && Dotted(rest)
    {
      NamespacedExactly(p);
    }
    forall e | e in m.env ensures LooksExposed(e.name) <==> Public(e.name) { ExposedExactly(e.name); }
    if m.slug == "cpanel-whm-manager" { RootExactly(m); }
    forall path ensures SlashFirst(m) ==> (Under(m, path) <==> exists rest :: "/" + path == m.apiPrefix + rest) {
      PrefixExactly(m, path);
    }
    if exists rest :: m.apiPrefix == "/api/extensions/cpanel-whm-manager" + rest { assert SlashFirst(m); }
    hide Namespaced, Dotted, Under, LooksExposed, Public, KeyProtected, Protects, Refers, Asks, ViewConforms,
         RouteConforms;
  }

  predicate SlashFirst(m: Manifest) { m.apiPrefix != "" && m.apiPrefix[0] == '/' }

  // ----- The validator -----

  method CheckAction(m: Manifest, place: Place, a: Action, errors: seq<Problem>) returns (out: seq<Problem>)
    ensures forall p :: p in out <==> p in errors || ActionViolates(m, place, a, p)
  {
    out := errors;
    if !StartsWith(a.path, GatewayPrefix(m)) {
      out := out + [ActionOutside(place, a.key)];
    }
    if a.permission.Some? && a.permission.value != "" && a.permission.value !in m.permissions {
      out := out + [ActionUndeclared(place, a.key, a.permission.value)];
    }
  }

  method CheckActions(m: Manifest, place: Place, actions: seq<Action>, errors: seq<Problem>) returns (out: seq<Problem>)
    ensures forall p :: p in out <==> p in errors || ActionsViolate(m, place, actions, p)
  {
    out := errors;
    for i := 0 to |actions|
      invariant forall p :: p in out <==> p in errors || ActionsViolate(m, place, actions[..i], p)
    {
      assert actions[..i + 1] == actions[..i] + [actions[i]];
      out := CheckAction(m, place, actions[i], out);
    }
    assert actions[..|actions|] == actions;
  }

  method CheckSection(m: Manifest, view: string, s: Section, errors: seq<Problem>) returns (out: seq<Problem>)
    ensures forall p :: p in out <==> p in errors || SectionViolates(m, view, s, p)
  {
    out := errors;
    if s.permission !in m.permissions {
      out := out + [SectionUndeclared(view, s.key, s.permission)];
    }
    if !StartsWith(s.path, GatewayPrefix(m)) {
      out := out + [SectionOutside(view, s.key)];
    }
    out := CheckActions(m, InSection(view, s.key), s.actions, out);
  }

  method CheckView(m: Manifest, v: View, errors: seq<Problem>) returns (out: seq<Problem>)
    ensures forall p :: p in out <==> p in errors || ViewViolates(m, v, p)
  {
    out := errors;
    if v.permission !in m.permissions {
      out := out + [ViewUndeclared(v.key, v.permission)];
    }
    if !StartsWith(v.path, GatewayPrefix(m)) {
      out := out + [ViewOutside(v.key)];
    }
    out := CheckActions(m, InView(v.key), v.actions, out);
    ghost var before := out;
    for i := 0 to |v.sections|
      invariant forall p :: p in out <==> p in before || SectionsViolate(m, v.key, v.sections[..i], p)
    {
      assert v.sections[..i + 1] == v.sections[..i] + [v.sections[i]];
      out := CheckSection(m, v.key, v.sections[i], out);
    }
    assert v.sections[..|v.sections|] == v.sections;
  }

  method CheckPermissions(m: Manifest, errors: seq<Problem>) returns (out: seq<Problem>)
    ensures forall p :: p in out <==>
              p in errors || (p.NotNamespaced? && p.permission in m.permissions && !Namespaced(p.permission))
  {
    out := errors;
    for i := 0 to |m.permissions|
      invariant forall p :: p in out <==>
                  p in errors || (p.NotNamespaced? && p.permission in m.permissions[..i] && !Namespaced(p.permission))
    {
      if !Namespaced(m.permissions[i]) { out := out + [NotNamespaced(m.permissions[i])]; }
    }
  }

  method CheckRoute(m: Manifest, route: Route, errors: seq<Problem>) returns (out: seq<Problem>)
    ensures forall p :: p in out <==> p in errors || RouteViolates(m, route, p)
  {
    out := errors;
    for k := 0 to |route.requiredPermissions|
      invariant forall p :: p in out <==>
                  p in errors || RouteViolates(m, route.(requiredPermissions := route.requiredPermissions[..k]), p)
    {
      var required := route.requiredPermissions[k];
      if required !in m.permissions { out := out + [RouteUndeclared(route.path, required)]; }
    }
  }

  method CheckRoutes(m: Manifest, errors: seq<Problem>) returns (out: seq<Problem>)
    ensures forall p :: p in out <==> p in errors || RoutesViolate(m, m.routes, p)
  {
    out := errors;
    for i := 0 to |m.routes|
      invariant forall p :: p in out <==> p in errors || RoutesViolate(m, m.routes[..i], p)
    {
      assert m.routes[..i + 1] == m.routes[..i] + [m.routes[i]];
      out := CheckRoute(m, m.routes[i], out);
    }
    assert m.routes[..|m.routes|] == m.routes;
  }

  method CheckEnv(env: seq<EnvVar>, errors: seq<Problem>) returns (out: seq<Problem>)
    ensures forall p :: p in out <==> p in errors || EnvViolates(env, p)
  {
    out := errors;
    var key := FirstNamed(env, ENV_KEY);
    match key {
      case None => out := out + [EnvKeyMissing];
      case Some(e) => if !e.required || !e.isSecret { out := out + [EnvKeyUnprotected]; }
    }
    ghost var before := out;
    for i := 0 to |env|
      invariant forall p :: p in out <==>
                  p in before ||
                    (p.SecretExposed? && exists e ::
                     e in env[..i] && e.isSecret && LooksExposed(e.name) && e.name == p.name)
    {
      assert env[..i + 1] == env[..i] + [env[i]];
      if env[i].isSecret && LooksExposed(env[i].name) { out := out + [SecretExposed(env[i].name)]; }
    }
    assert env[..|env|] == env;
  }

  // The problems reported are exactly those there are, and there are none exactly when the manifest conforms.
  method Validate(m: Manifest) returns (ok: bool, errors: seq<Problem>)
    ensures ok <==> Conforms(m)
    ensures ok <==> Acceptable(m)
    ensures ok <==> errors == []
    ensures forall p :: p in errors <==> Violated(m, p)
  {
    ConformsExactly(m);
    AcceptsExactly(m);
    hide Conforms, Acceptable;
    errors := [];
    if m.slug != SLUG { errors := errors + [SlugWrong]; }
    if m.tablePrefix != TABLE_PREFIX { errors := errors + [TablePrefixWrong]; }
    if !StartsWith(m.apiPrefix, API_ROOT + m.slug) { errors := errors + [ApiPrefixOutside]; }
    errors := CheckPermissions(m, errors);
    errors := CheckRoutes(m, errors);
    ghost var before := errors;
    for i := 0 to |m.views|
      invariant forall p :: p in errors <==> p in before || ViewsViolate(m, m.views[..i], p)
    {
      assert m.views[..i + 1] == m.views[..i] + [m.views[i]];
      errors := CheckView(m, m.views[i], errors);
    }
    assert m.views[..|m.views|] == m.views;
    errors := CheckEnv(m.env, errors);
    ok := errors == [];
    if ok {
      forall p ensures !Violated(m, p) { assert p !in errors; }
    } else {
      assert errors[0] in errors && Violated(m, errors[0]);
    }
  }

  // ----- Adding a permission -----

  function WithPermission(m: Manifest, permission: string): Manifest {
    m.(permissions := m.permissions + [permission])
  }

  lemma SectionStillConforms(m: Manifest, permission: string, s: Section)
    requires SectionConforms(m, s)
    ensures SectionConforms(WithPermission(m, permission), s)
  {
    forall a | a in s.actions ensures ActionConforms(WithPermission(m, permission), a) {
      assert ActionConforms(m, a);
    }
  }

  lemma ViewStillConforms(m: Manifest, permission: string, v: View)
    requires ViewConforms(m, v)
    ensures ViewConforms(WithPermission(m, permission), v)
  {
    forall a | a in v.actions ensures ActionConforms(WithPermission(m, permission), a) {
      assert ActionConforms(m, a);
    }
    forall s | s in v.sections ensures SectionConforms(WithPermission(m, permission), s) {
      SectionStillConforms(m, permission, s);
    }
  }

  // Adding a permission to a valid manifest keeps it valid exactly when the permission is well namespaced.
  lemma AddingPermission(m: Manifest, permission: string)
    requires Conforms(m)
    ensures Conforms(WithPermission(m, permission)) <==> Namespaced(permission)
  {
    var m' := WithPermission(m, permission);
    assert permission in m'.permissions;
    forall v | v in m.views ensures ViewConforms(m', v) {
      ViewStillConforms(m, permission, v);
    }
    forall r | r in m.routes ensures RouteConforms(m', r) {
      assert RouteConforms(m, r);
    }
  }

  // The permission pattern, read letter by letter.
  predicate Dotted(s: string) {
    && (forall i :: 0 <= i < |s| ==> 'a' <= s[i] <= 'z' || '0' <= s[i] <= '9' || s[i] == '_' || s[i] == '.')
    && (s != "" ==> s[0] == '.' && s[|s| - 1] != '.')
    && (forall i :: 0 <= i < |s| - 1 && s[i] == '.' ==> s[i + 1] != '.')
  }

  lemma {:induction false} SegmentsAreDotted(s: string)
    requires Segments(s)
    ensures Dotted(s)
    decreases |s|
  {
    if s != "" {
      var n :| 1 < n <= |s| && Word(s[1..n]) && Segments(s[n..]);
      SegmentsAreDotted(s[n..]);
      forall i | 0 <= i < |s|
        ensures WordChar(s[i]) || s[i] == '.'
        ensures i < |s| - 1 && s[i] == '.' ==> s[i + 1] != '.'
      {
        if 1 <= i < n { assert WordChar(s[1..n][i - 1]); }
        if n <= i { assert s[i] == s[n..][i - n]; }
        if n <= i < |s| - 1 { assert s[i + 1] == s[n..][i + 1 - n]; }
        if i == 0 { assert WordChar(s[1..n][0]); }
      }
      if n == |s| { assert WordChar(s[1..n][n - 2]); } else { assert s[|s| - 1] == s[n..][|s| - 1 - n]; }
    }
  }

  lemma WordEnd(s: string, from: nat) returns (n: nat)
    requires from <= |s| && forall i :: 0 <= i < |s| ==> WordChar(s[i]) || s[i] == '.'
    ensures from <= n <= |s| && (forall i :: from <= i < n ==> WordChar(s[i])) && (n < |s| ==> s[n] == '.')
    decreases |s| - from
  {
    n := from;
    if from < |s| && s[from] != '.' { n := WordEnd(s, from + 1); }
  }

  lemma {:induction false} DottedAreSegments(s: string)
    requires Dotted(s)
    ensures Segments(s)
    decreases |s|
  {
    if s != "" {
      var n := WordEnd(s, 1);
      assert |s| > 1 && s[1] != '.';
      var rest := s[n..];
      forall i | 0 <= i < |rest| ensures rest[i] == s[n + i] {}
      assert Word(s[1..n]);
      DottedAreSegments(rest);
    }
  }

  lemma SegmentsExactly(s: string)
    ensures Segments(s) <==> Dotted(s)
  {
    if Segments(s) { SegmentsAreDotted(s); }
    if Dotted(s) { DottedAreSegments(s); }
  }
}
