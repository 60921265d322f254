/** What permission values grant, in terms of the names that stand in them, and the fixtures that are written with them. */
module Grants {
  import opened Options
  import opened Ordering
  import opened Values
  import opened Store
  import opened Permissions
  import opened Routes

  // ---- By name ----

  predicate ReadName(name: string) {
    name in {"read", "view", "reader", "readers", "viewers"}
  }

  predicate WriteName(name: string) {
    name in {"write", "edit", "editor", "editors", "update", "manage", "admin", "admins"}
  }

  predicate AdminName(name: string) {
    name in {"admin", "administrator", "owner", "full", "all"}
  }

  lemma NamesExact(name: string)
    ensures name in READ_KEYS <==> ReadName(name)
    ensures name in WRITE_KEYS <==> WriteName(name)
    ensures name in ADMIN_TOKENS <==> AdminName(name)
    ensures name in FULL_ACCESS_KEYS <==> name in {"users", "actors", "members", "allowed", "allow", "access"}
    ensures name in RESOURCE_KEYS <==> name in {"permissions", "permission", "access"}
  {
  }

  lemma NamesDiffer(name: string)
    ensures !(ReadName(name) && WriteName(name))
  {
    if ReadName(name) {
      assert name[0] == 'r' || name[0] == 'v';
    }
  }

  /** What a value under an actor's own name grants: everything but a flag, a token or a role has no effect. */
  lemma {:induction false} ScopedExact(value: Value, op: Operation, fold: Folding)
    ensures ScopedGrants(value, op, fold) <==>
      || value == Bool(true)
      || (value.Str? && Token(fold(value.s), op))
      || (value.Arr? && exists item | item in value.items :: item.Str? && Token(fold(item.s), op))
      || (value.Obj?
          && (|| (exists key | key in value.fields && (WriteName(key) || (op.ReadPage? && ReadName(key))) :: value.fields[key] == Bool(true))
              || ("role" in value.fields && value.fields["role"].Str? && Token(fold(value.fields["role"].s), op))))
  {
    if value.Str? {
      TokenExact(fold(value.s), op);
    } else if value.Arr? {
      forall i | 0 <= i < |value.items| && value.items[i].Str?
        ensures TokenGrants(fold(value.items[i].s), op) <==> Token(fold(value.items[i].s), op)
      {
        TokenExact(fold(value.items[i].s), op);
      }
    } else if value.Obj? {
      FlagsExact(value.fields, op);
      if "role" in value.fields && value.fields["role"].Str? {
        TokenExact(fold(value.fields["role"].s), op);
      }
    }
  }

  predicate Token(token: string, op: Operation) {
    AdminName(token) || WriteName(token) || (op.ReadPage? && ReadName(token))
  }

  lemma TokenExact(token: string, op: Operation)
    ensures TokenGrants(token, op) <==> Token(token, op)
  {
    NamesExact(token);
  }

  lemma {:induction false} FlagsExact(fields: map<string, Value>, op: Operation)
    ensures (exists k | 0 <= k < |WRITE_KEYS| :: Get(fields, WRITE_KEYS[k]) == Some(Bool(true)))
            || (op.ReadPage? && exists k | 0 <= k < |READ_KEYS| :: Get(fields, READ_KEYS[k]) == Some(Bool(true)))
      <==> exists key | key in fields && (WriteName(key) || (op.ReadPage? && ReadName(key))) :: fields[key] == Bool(true)
  {
    if key :| key in fields && (WriteName(key) || (op.ReadPage? && ReadName(key))) && fields[key] == Bool(true) {
      NamesExact(key);
      if WriteName(key) {
        var k :| 0 <= k < |WRITE_KEYS| && WRITE_KEYS[k] == key;
        assert Get(fields, WRITE_KEYS[k]) == Some(Bool(true));
      } else {
        var k :| 0 <= k < |READ_KEYS| && READ_KEYS[k] == key;
        assert Get(fields, READ_KEYS[k]) == Some(Bool(true));
      }
    }
    forall k | 0 <= k < |WRITE_KEYS| ensures WriteName(WRITE_KEYS[k]) {
      NamesExact(WRITE_KEYS[k]);
    }
    forall k | 0 <= k < |READ_KEYS| ensures ReadName(READ_KEYS[k]) {
      NamesExact(READ_KEYS[k]);
    }
  }

  /** A key whose value lists those who may do the operation. */
  predicate ListsActors(key: string, op: Operation) {
    || key in {"users", "actors", "members", "allowed", "allow", "access"}
    || WriteName(key)
    || (op.ReadPage? && ReadName(key))
  }

  /** What a shared mapping grants, key by key. */
  lemma {:induction false} SharedExact(fields: map<string, Value>, aliases: set<string>, op: Operation, fold: Folding)
    ensures SharedGrants(Obj(fields), aliases, op, fold) <==>
      || (exists name | name in fields && (name == "*" || name in aliases) :: ScopedGrants(fields[name], op, fold))
      || (exists key | key in fields && ListsActors(key, op) :: ActorInValue(fields[key], aliases))
      || (exists key | key in fields && key in {"permissions", "permission", "access"} ::
            SharedGrants(fields[key], aliases, op, fold))
  {
    forall k | 0 <= k < |OperationKeys(op)| ensures ListsActors(OperationKeys(op)[k], op) {
      KeyListed(OperationKeys(op)[k], op);
    }
    forall k | 0 <= k < |FULL_ACCESS_KEYS| ensures ListsActors(FULL_ACCESS_KEYS[k], op) {
      NamesExact(FULL_ACCESS_KEYS[k]);
    }
    forall k | 0 <= k < |RESOURCE_KEYS| ensures RESOURCE_KEYS[k] in {"permissions", "permission", "access"} {
      NamesExact(RESOURCE_KEYS[k]);
    }
    if key :| key in fields && ListsActors(key, op) && ActorInValue(fields[key], aliases) {
      KeyListed(key, op);
      if key in FULL_ACCESS_KEYS {
        var k :| 0 <= k < |FULL_ACCESS_KEYS| && FULL_ACCESS_KEYS[k] == key;
      } else {
        var k :| 0 <= k < |OperationKeys(op)| && OperationKeys(op)[k] == key;
      }
    }
    if key :| key in fields && key in {"permissions", "permission", "access"} && SharedGrants(fields[key], aliases, op, fold) {
      NamesExact(key);
      var k :| 0 <= k < |RESOURCE_KEYS| && RESOURCE_KEYS[k] == key;
    }
  }

  lemma KeyListed(key: string, op: Operation)
    ensures ListsActors(key, op) <==> key in FULL_ACCESS_KEYS || key in OperationKeys(op)
  {
    NamesExact(key);
  }

  /** Lists of readers never let anybody write. */
  lemma {:induction false} ReadersNeverWrite(fields: map<string, Value>, aliases: set<string>, fold: Folding)
    requires forall key | key in fields :: ReadName(key) && key !in aliases
    ensures !SharedGrants(Obj(fields), aliases, WritePage, fold)
  {
    SharedExact(fields, aliases, WritePage, fold);
  }

  /** Naming the actor under any key for writing grants both operations, under any key for reading the one. */
  lemma {:induction false} ListedMay(fields: map<string, Value>, key: string, aliases: set<string>, op: Operation, fold: Folding)
    requires key in fields && ActorInValue(fields[key], aliases)
    requires WriteName(key) || (op.ReadPage? && ReadName(key))
    ensures SharedGrants(Obj(fields), aliases, op, fold)
  {
    SharedExact(fields, aliases, op, fold);
  }

  // ---- Reading never decides about writing ----

  /** A value without the keys for reading, at any depth. */
  function Unread(value: Value): Value
    decreases value
  {
    match value
    case Obj(fields) => Obj(map key | key in fields && !ReadName(key) :: Unread(fields[key]))
    case Arr(items) => Arr(seq(|items|, i requires 0 <= i < |items| => Unread(items[i])))
    case _ => value
  }

  lemma {:induction false} UnreadNames(value: Value, aliases: set<string>)
    requires forall alias | alias in aliases :: !ReadName(alias)
    ensures ActorInValue(Unread(value), aliases) == ActorInValue(value, aliases)
    decreases value
  {
    if value.Arr? {
      var items := Unread(value).items;
      forall i | 0 <= i < |items| ensures ActorInValue(items[i], aliases) == ActorInValue(value.items[i], aliases) {
        UnreadNames(value.items[i], aliases);
      }
    } else if value.Obj? {
      if key :| key in value.fields && Named(key, aliases) {
        assert key in Unread(value).fields;
      }
    }
  }

  lemma UnreadKeeps(value: Value)
    ensures value.Str? || Unread(value).Str? ==> Unread(value) == value
    ensures Unread(value) == Bool(true) <==> value == Bool(true)
  {
  }

  lemma {:induction false} UnreadScoped(value: Value, fold: Folding)
    ensures ScopedGrants(Unread(value), WritePage, fold) == ScopedGrants(value, WritePage, fold)
  {
    ScopedExact(value, WritePage, fold);
    ScopedExact(Unread(value), WritePage, fold);
    UnreadKeeps(value);
    if value.Arr? {
      var items := Unread(value).items;
      forall i | 0 <= i < |items| ensures items[i].Str? || value.items[i].Str? ==> items[i] == value.items[i] {
        UnreadKeeps(value.items[i]);
      }
      if item :| item in value.items && item.Str? && Token(fold(item.s), WritePage) {
        var i :| 0 <= i < |items| && value.items[i] == item;
        assert items[i] in items;
      }
    } else if value.Obj? {
      var fields := Unread(value).fields;
      forall key | key in value.fields && (WriteName(key) || key == "role")
        ensures key in fields && (fields[key] == Bool(true) <==> value.fields[key] == Bool(true))
        ensures fields[key].Str? || value.fields[key].Str? ==> fields[key] == value.fields[key]
      {
        NamesDiffer(key);
        UnreadKeeps(value.fields[key]);
      }
    }
  }

  /** Taking out what stands under keys for reading, at any depth, never changes who may write. */
  lemma {:induction false} UnreadWrites(value: Value, aliases: set<string>, fold: Folding)
    requires forall alias | alias in aliases :: !ReadName(alias)
    ensures SharedGrants(Unread(value), aliases, WritePage, fold) == SharedGrants(value, aliases, WritePage, fold)
    decreases value
  {
    UnreadNames(value, aliases);
    if value.Obj? {
      var fields := Unread(value).fields;
      SharedExact(value.fields, aliases, WritePage, fold);
      SharedExact(fields, aliases, WritePage, fold);
      forall key | key in fields
        ensures ScopedGrants(fields[key], WritePage, fold) == ScopedGrants(value.fields[key], WritePage, fold)
        ensures ActorInValue(fields[key], aliases) == ActorInValue(value.fields[key], aliases)
        ensures SharedGrants(fields[key], aliases, WritePage, fold) == SharedGrants(value.fields[key], aliases, WritePage, fold)
      {
        UnreadScoped(value.fields[key], fold);
        UnreadNames(value.fields[key], aliases);
        UnreadWrites(value.fields[key], aliases, fold);
      }
      assert forall key | key in value.fields && !ReadName(key) :: key in fields;
    }
  }

  /** A value under an actor's own name without the tokens for reading. */
  function Untoken(value: Value, fold: Folding): Value {
    match value
    case Str(s) => if ReadName(fold(s)) then Null else value
    case Arr(items) =>
      Arr(seq(|items|, i requires 0 <= i < |items| => if items[i].Str? && ReadName(fold(items[i].s)) then Null else items[i]))
    case Obj(fields) =>
      Obj(map key | key in fields ::
            if key == "role" && fields[key].Str? && ReadName(fold(fields[key].s)) then Null else fields[key])
    case _ => value
  }

  /** Taking out tokens for reading never changes whether that value grants writing. */
  lemma {:induction false} UntokenWrites(value: Value, fold: Folding)
    ensures ScopedGrants(Untoken(value, fold), WritePage, fold) == ScopedGrants(value, WritePage, fold)
  {
    ScopedExact(value, WritePage, fold);
    ScopedExact(Untoken(value, fold), WritePage, fold);
    if value.Arr? {
      var items := Untoken(value, fold).items;
      if item :| item in value.items && item.Str? && Token(fold(item.s), WritePage) {
        var i :| 0 <= i < |value.items| && value.items[i] == item;
        assert items[i] == item && item in items;
      }
      if item :| item in items && item.Str? && Token(fold(item.s), WritePage) {
        var i :| 0 <= i < |items| && items[i] == item;
        assert value.items[i] == item;
      }
    } else if value.Obj? {
      var fields := Untoken(value, fold).fields;
      assert fields.Keys == value.fields.Keys;
      assert forall key | key in fields && WriteName(key) :: fields[key] == value.fields[key];
    }
  }

  // ---- Which entries apply ----

  /** A mapping holds this value for a resource, in one of the named sections or under the resource's own key. */
  predicate Holds(fields: map<string, Value>, names: set<string>, id: string, value: Value) {
    || (exists name | name in names && name in fields && fields[name].Obj? && id in fields[name].fields :: fields[name].fields[id] == value)
    || (id in fields && fields[id] == value)
  }

  lemma {:induction false} FoundExact(fields: map<string, Value>, list: seq<string>, names: set<string>, id: string, value: Value)
    requires forall name :: name in list <==> name in names
    ensures value in Found(fields, list, id) <==> Holds(fields, names, id, value)
  {
    var section := InSection(fields, id);
    InFlatMap(section, list, value);
    if name :| name in names && name in fields && fields[name].Obj? && id in fields[name].fields && fields[name].fields[id] == value {
      var i :| 0 <= i < |list| && list[i] == name;
      assert value in section(list[i]);
    }
  }

  function Sections(scope: Scope): set<string> {
    if scope.PageScope? then {"page", "pages", "page_permissions", "pages_permissions"}
    else {"space", "spaces", "space_permissions", "spaces_permissions"}
  }

  lemma InWrap(values: seq<Value>, scoped: bool, entry: Entry)
    ensures entry in Wrap(values, scoped) <==> entry.value in values && entry.ActorScoped? == scoped
  {
    var entries := Wrap(values, scoped);
    if entry.value in values && entry.ActorScoped? == scoped {
      var i :| 0 <= i < |values| && values[i] == entry.value;
      assert entries[i] == entry;
    }
  }

  lemma {:induction false} SharedEntries(w: World, scope: Scope, id: string, value: Value)
    ensures Shared(value) in Wrap(Found(w.permissions, SectionNames(scope), id), false)
      <==> Holds(w.permissions, Sections(scope), id, value)
  {
    InWrap(Found(w.permissions, SectionNames(scope), id), false, Shared(value));
    FoundExact(w.permissions, SectionNames(scope), Sections(scope), id, value);
  }

  /** The actor has a mapping under one of its names, and that mapping holds the value. */
  predicate HeldUnder(permissions: map<string, Value>, aliases: set<string>, names: set<string>, id: string, value: Value) {
    exists alias | alias in aliases && alias in permissions && permissions[alias].Obj? ::
      Holds(permissions[alias].fields, names, id, value)
  }

  lemma {:induction false} UnderOne(w: World, scope: Scope, id: string, alias: string, entry: Entry)
    ensures entry in FoundUnder(w.permissions, SectionNames(scope), id)(alias)
      <==> entry.ActorScoped? && alias in w.permissions && w.permissions[alias].Obj?
           && Holds(w.permissions[alias].fields, Sections(scope), id, entry.value)
  {
    if alias in w.permissions && w.permissions[alias].Obj? {
      InWrap(Found(w.permissions[alias].fields, SectionNames(scope), id), true, entry);
      FoundExact(w.permissions[alias].fields, SectionNames(scope), Sections(scope), id, entry.value);
    }
  }

  lemma {:induction false} InSome(f: string -> seq<Entry>, names: set<string>, entry: Entry)
    ensures entry in FlatMap(f, SortedIds(names)) <==> exists name | name in names :: entry in f(name)
  {
    var list := SortedIds(names);
    InFlatMap(f, list, entry);
    if name :| name in names && entry in f(name) {
      assert name in list;
      var i :| 0 <= i < |list| && list[i] == name;
    }
  }

  lemma {:induction false} EntriesUnder(w: World, scope: Scope, id: string, aliases: set<string>, entry: Entry)
    ensures entry in FlatMap(FoundUnder(w.permissions, SectionNames(scope), id), SortedIds(aliases))
      <==> entry.ActorScoped? && HeldUnder(w.permissions, aliases, Sections(scope), id, entry.value)
  {
    var under := FoundUnder(w.permissions, SectionNames(scope), id);
    InSome(under, aliases, entry);
    forall alias
      ensures entry in under(alias)
        <==> entry.ActorScoped? && alias in w.permissions && w.permissions[alias].Obj?
             && Holds(w.permissions[alias].fields, Sections(scope), id, entry.value)
    {
      UnderOne(w, scope, id, alias, entry);
    }
  }

  lemma {:induction false} OwnExact(fields: map<string, Value>, entry: Entry)
    ensures entry in FlatMap(OwnEntries(fields), RESOURCE_KEYS)
      <==> entry.Shared? && exists key | key in {"permissions", "permission", "access"} && key in fields :: fields[key] == entry.value
  {
    var own := OwnEntries(fields);
    InFlatMap(own, RESOURCE_KEYS, entry);
    forall i | 0 <= i < |RESOURCE_KEYS| ensures RESOURCE_KEYS[i] in {"permissions", "permission", "access"} {
      NamesExact(RESOURCE_KEYS[i]);
    }
    if entry.Shared? {
      if key :| key in {"permissions", "permission", "access"} && key in fields && fields[key] == entry.value {
        NamesExact(key);
        var i :| 0 <= i < |RESOURCE_KEYS| && RESOURCE_KEYS[i] == key;
        assert own(RESOURCE_KEYS[i]) == [entry];
      }
    }
  }

  /**
   * Exactly which values decide about a resource: those that the permissions hold for it, those
   * that they hold for it under a name of the actor, and those that it carries itself.
   */
  lemma {:induction false} EntriesExact(w: World, scope: Scope, id: string, actor: Actor, entry: Entry)
    ensures entry in EntriesFor(w, scope, id, actor) <==>
      || (entry.Shared? && Holds(w.permissions, Sections(scope), id, entry.value))
      || (entry.ActorScoped? && HeldUnder(w.permissions, actor.aliases, Sections(scope), id, entry.value))
      || (entry.Shared? && exists key | key in {"permissions", "permission", "access"} && key in ResourceFields(w, scope, id) ::
            ResourceFields(w, scope, id)[key] == entry.value)
  {
    var found := Wrap(Found(w.permissions, SectionNames(scope), id), false);
    var under := FlatMap(FoundUnder(w.permissions, SectionNames(scope), id), SortedIds(actor.aliases));
    var own := FlatMap(OwnEntries(ResourceFields(w, scope, id)), RESOURCE_KEYS);
    if entry.Shared? {
      SharedEntries(w, scope, id, entry.value);
    } else {
      InWrap(Found(w.permissions, SectionNames(scope), id), false, entry);
    }
    EntriesUnder(w, scope, id, actor.aliases, entry);
    OwnExact(ResourceFields(w, scope, id), entry);
    assert EntriesFor(w, scope, id, actor) == found + under + own;
  }

  // ---- Who may without any entry ----

  predicate Administrator(w: World, actor: Actor, fold: Folding) {
    actor.userId in w.users && w.users[actor.userId].Obj?
    && var user := w.users[actor.userId].fields;
       || ("is_admin" in user && user["is_admin"] == Bool(true))
       || ("admin" in user && user["admin"] == Bool(true))
       || ("role" in user && user["role"].Str? && AdminName(fold(user["role"].s)))
  }

  lemma AdministratorExact(w: World, actor: Actor, fold: Folding)
    ensures GlobalAdmin(w, actor, fold) <==> Administrator(w, actor, fold)
  {
    if actor.userId in w.users && w.users[actor.userId].Obj? {
      var user := w.users[actor.userId].fields;
      if "role" in user && user["role"].Str? {
        NamesExact(fold(user["role"].s));
      }
    }
  }

  /** Neither the permissions nor the resource itself hold anything about it. */
  ghost predicate NothingHeld(w: World, scope: Scope, id: string, actor: Actor) {
    && (forall value :: !Holds(w.permissions, Sections(scope), id, value))
    && (forall value :: !HeldUnder(w.permissions, actor.aliases, Sections(scope), id, value))
    && forall key | key in {"permissions", "permission", "access"} :: key !in ResourceFields(w, scope, id)
  }

  lemma {:induction false} NoEntries(w: World, scope: Scope, id: string, actor: Actor)
    requires NothingHeld(w, scope, id, actor)
    ensures EntriesFor(w, scope, id, actor) == []
  {
    var entries := EntriesFor(w, scope, id, actor);
    assert entries == [] || entries[0] in entries;
    if entries != [] {
      EntriesExact(w, scope, id, actor, entries[0]);
    }
  }

  /** Where nothing is held about a page and its space, only administrators and the owner have access. */
  lemma {:induction false} BareAccess(w: World, page: Page, actor: Actor, op: Operation, fold: Folding)
    requires NothingHeld(w, PageScope, page.id, actor) && NothingHeld(w, SpaceScope, page.spaceId, actor)
    ensures CanAccess(w, page, actor, op, fold) <==> Administrator(w, actor, fold) || page.ownerId in actor.aliases
  {
    AdministratorExact(w, actor, fold);
    NoEntries(w, PageScope, page.id, actor);
    NoEntries(w, SpaceScope, page.spaceId, actor);
  }

  /** Where nothing is held about a space, only administrators, its owner and those it names may create pages. */
  lemma {:induction false} BareCreate(w: World, spaceId: string, actor: Actor, fold: Folding)
    requires NothingHeld(w, SpaceScope, spaceId, actor)
    ensures CanCreate(w, spaceId, actor, fold) <==>
      || Administrator(w, actor, fold)
      || (spaceId in w.spaces && w.spaces[spaceId].Obj?
          && var space := w.spaces[spaceId].fields;
             || (exists name | name in actor.aliases :: Get(space, "owner_id") == Some(Str(name)))
             || (if "admins" in space then ActorInValue(space["admins"], actor.aliases)
                 else "administrators" in space && ActorInValue(space["administrators"], actor.aliases)))
  {
    AdministratorExact(w, actor, fold);
    NoEntries(w, SpaceScope, spaceId, actor);
    if spaceId in w.spaces && w.spaces[spaceId].Obj? {
      OwnerExact(w, spaceId, actor);
    }
  }

  lemma OwnerExact(w: World, spaceId: string, actor: Actor)
    requires spaceId in w.spaces && w.spaces[spaceId].Obj?
    ensures var space := w.spaces[spaceId].fields;
      SpaceOwner(w, spaceId, actor) <==>
        || (exists name | name in actor.aliases :: Get(space, "owner_id") == Some(Str(name)))
        || (if "admins" in space then ActorInValue(space["admins"], actor.aliases)
            else "administrators" in space && ActorInValue(space["administrators"], actor.aliases))
  {
    var space := w.spaces[spaceId].fields;
    if "owner_id" in space && space["owner_id"].Str? && space["owner_id"].s in actor.aliases {
      assert Get(space, "owner_id") == Some(Str(space["owner_id"].s));
    }
  }

  // ---- The fixtures ----

  function Names(names: seq<string>): Value {
    Arr(seq(|names|, i requires 0 <= i < |names| => Str(names[i])))
  }

  predicate Among(names: seq<string>, aliases: set<string>) {
    exists i | 0 <= i < |names| :: names[i] == "*" || names[i] in aliases
  }

  lemma NamesListed(names: seq<string>, aliases: set<string>)
    ensures ActorInValue(Names(names), aliases) <==> Among(names, aliases)
  {
    var items := Names(names).items;
    if i :| 0 <= i < |names| && (names[i] == "*" || names[i] in aliases) {
      assert ActorInValue(items[i], aliases);
    }
  }

  /** How the fixtures write a permission: who reads, and who writes. */
  function Acl(readers: seq<string>, writers: seq<string>): Value {
    Obj(map["readers" := Names(readers), "writers" := Names(writers)])
  }

  /** No name of the actor is one of the keys that the fixtures use. */
  predicate OrdinaryNames(aliases: set<string>) {
    aliases !! {"readers", "writers", "spaces", "pages"}
  }

  /** Such a permission lets the readers read. It lets nobody write: the resolver knows no key "writers". */
  lemma {:induction false} AclExact(readers: seq<string>, writers: seq<string>, aliases: set<string>, op: Operation, fold: Folding)
    requires OrdinaryNames(aliases)
    ensures SharedGrants(Acl(readers, writers), aliases, op, fold) <==> op.ReadPage? && Among(readers, aliases)
  {
    var fields: map<string, Value> := map["readers" := Names(readers), "writers" := Names(writers)];
    SharedExact(fields, aliases, op, fold);
    NamesListed(readers, aliases);
    assert forall key | key in fields :: key == "readers" || key == "writers";
    assert !ListsActors("writers", op) by { KeysApart(); }
    assert ListsActors("readers", op) <==> op.ReadPage? by { KeysApart(); }
    if op.ReadPage? && Among(readers, aliases) {
      assert "readers" in fields && ActorInValue(fields["readers"], aliases);
    }
  }

  lemma KeysApart()
    ensures !WriteName("readers") && !WriteName("writers") && !ReadName("writers") && ReadName("readers")
    ensures "writers" !in {"users", "actors", "members", "allowed", "allow", "access"}
    ensures "readers" !in {"users", "actors", "members", "allowed", "allow", "access"}
    ensures "readers" !in {"permissions", "permission", "access"} && "writers" !in {"permissions", "permission", "access"}
  {
  }

  /** A page of a fixture: its space has a permission, the page may have one, and nothing else is held about either. */
  ghost predicate Fixture(w: World, page: Page, onSpace: Value, onPage: Option<Value>) {
    && page.id in w.pages && w.pages[page.id] == page && page.extra == map[]
    && page.id !in {"spaces", "pages"} && page.spaceId !in {"spaces", "pages"}
    && w.permissions.Keys == {"spaces", "pages"} && w.permissions["spaces"].Obj? && w.permissions["pages"].Obj?
    && Get(w.permissions["spaces"].fields, page.spaceId) == Some(onSpace)
    && Get(w.permissions["pages"].fields, page.id) == onPage
    && forall key | key in {"permissions", "permission", "access"} :: key !in ResourceFields(w, SpaceScope, page.spaceId)
  }

  lemma {:induction false} HeldInSection(
    permissions: map<string, Value>, names: set<string>, section: string, other: string, id: string, value: Value)
    requires permissions.Keys == {section, other} && permissions[section].Obj? && section in names && other !in names
    requires id !in permissions
    ensures Holds(permissions, names, id, value) <==> Get(permissions[section].fields, id) == Some(value)
  {
    if id in permissions[section].fields && permissions[section].fields[id] == value {
      assert section in names && section in permissions;
    }
  }

  lemma {:induction false} FixtureEntry(w: World, page: Page, onSpace: Value, onPage: Option<Value>, actor: Actor, entry: Entry)
    requires Fixture(w, page, onSpace, onPage) && OrdinaryNames(actor.aliases)
    ensures entry in EntriesFor(w, PageScope, page.id, actor) <==> onPage.Some? && entry == Shared(onPage.value)
    ensures entry in EntriesFor(w, SpaceScope, page.spaceId, actor) <==> entry == Shared(onSpace)
  {
    SectionsApart();
    NotOnPages(page);
    assert ResourceFields(w, PageScope, page.id) == PageFields(page);
    FixtureSide(w, PageScope, "pages", "spaces", page.id, actor, entry);
    FixtureSide(w, SpaceScope, "spaces", "pages", page.spaceId, actor, entry);
  }

  lemma {:induction false} FixtureSide(w: World, scope: Scope, section: string, other: string, id: string, actor: Actor, entry: Entry)
    requires w.permissions.Keys == {section, other} && w.permissions[section].Obj?
    requires section in Sections(scope) && other !in Sections(scope)
    requires section !in actor.aliases && other !in actor.aliases && id !in {section, other}
    requires forall key | key in {"permissions", "permission", "access"} :: key !in ResourceFields(w, scope, id)
    ensures entry in EntriesFor(w, scope, id, actor)
      <==> entry.Shared? && Get(w.permissions[section].fields, id) == Some(entry.value)
  {
    EntriesExact(w, scope, id, actor, entry);
    HeldInSection(w.permissions, Sections(scope), section, other, id, entry.value);
    assert forall alias | alias in actor.aliases :: alias !in w.permissions;
  }

  lemma SectionsApart()
    ensures "pages" in Sections(PageScope) && "spaces" !in Sections(PageScope)
    ensures "spaces" in Sections(SpaceScope) && "pages" !in Sections(SpaceScope)
  {
  }

  lemma NotOnPages(page: Page)
    requires page.extra == map[]
    ensures forall key | key in {"permissions", "permission", "access"} :: key !in PageFields(page)
  {
  }

  lemma {:induction false} OneEntry(entries: seq<Entry>, entry: Entry, aliases: set<string>, op: Operation, fold: Folding)
    requires forall e :: e in entries <==> e == entry
    ensures entries != [] && (AnyGrants(entries, aliases, op, fold) <==> EntryGrants(entry, aliases, op, fold))
  {
    assert entry in entries;
    forall i | 0 <= i < |entries| ensures entries[i] == entry {
      assert entries[i] in entries;
    }
  }

  /**
   * Who may do what with a page of a fixture: administrators and the owner everything, everybody
   * listed as a reader of the space, and of the page if that has readers of its own, may read; and
   * nobody else may write, listed as a writer or not.
   */
  lemma {:induction false} FixtureAccess(
    w: World, page: Page, spaceReaders: seq<string>, spaceWriters: seq<string>,
    onPage: Option<(seq<string>, seq<string>)>, actor: Actor, op: Operation, fold: Folding)
    requires OrdinaryNames(actor.aliases)
    requires Fixture(w, page, Acl(spaceReaders, spaceWriters),
                     if onPage.Some? then Some(Acl(onPage.value.0, onPage.value.1)) else None)
    ensures CanAccess(w, page, actor, op, fold) <==>
      || Administrator(w, actor, fold) || page.ownerId in actor.aliases
      || (op.ReadPage? && Among(spaceReaders, actor.aliases) && (onPage.Some? ==> Among(onPage.value.0, actor.aliases)))
  {
    var space, own := Acl(spaceReaders, spaceWriters), if onPage.Some? then Some(Acl(onPage.value.0, onPage.value.1)) else None;
    var pages, spaces := EntriesFor(w, PageScope, page.id, actor), EntriesFor(w, SpaceScope, page.spaceId, actor);
    AdministratorExact(w, actor, fold);
    AclExact(spaceReaders, spaceWriters, actor.aliases, op, fold);
    forall entry
      ensures entry in pages <==> own.Some? && entry == Shared(own.value)
      ensures entry in spaces <==> entry == Shared(space)
    {
      FixtureEntry(w, page, space, own, actor, entry);
    }
    OneEntry(spaces, Shared(space), actor.aliases, op, fold);
    assert pages == [] || pages[0] in pages;
    if onPage.Some? {
      AclExact(onPage.value.0, onPage.value.1, actor.aliases, op, fold);
      OneEntry(pages, Shared(own.value), actor.aliases, op, fold);
    }
  }

  /** The page of the permission tasks, with its three actors and their roles. */
  ghost predicate PolicyPage(w: World, page: Page) {
    && page.id == "page-6" && page.spaceId == "space-3" && page.ownerId == "carol"
    && Fixture(w, page, Acl(["alice", "carol"], ["carol"]), Some(Acl(["alice", "carol"], ["carol"])))
    && (forall id | id in {"alice", "bob", "carol"} :: id in w.users && w.users[id].Obj? && var user := w.users[id].fields;
          "is_admin" !in user && "admin" !in user && "role" in user && user["role"] == Str(if id == "bob" then "reader" else "editor"))
  }

  function Alice(): Actor {
    Actor("alice", {"alice", "Alice Chen", "alice@example.test"})
  }

  function Bob(): Actor {
    Actor("bob", {"bob", "Bob Singh", "bob@example.test"})
  }

  function Carol(): Actor {
    Actor("carol", {"carol", "Carol Rivera", "carol@example.test"})
  }

  lemma {:induction false} NoAdministrators(w: World, page: Page, actor: Actor, fold: Folding)
    requires PolicyPage(w, page) && fold("editor") == "editor" && fold("reader") == "reader"
    requires actor.userId in {"alice", "bob", "carol"}
    ensures !Administrator(w, actor, fold)
  {
    RolesApart();
  }

  lemma ReadersAmong(names: seq<string>, actor: Actor)
    requires names == ["alice", "carol"] && actor in {Alice(), Bob(), Carol()}
    ensures Among(names, actor.aliases) <==> actor != Bob()
  {
    ActorsApart(actor);
    assert names[0] == "alice" && names[1] == "carol";
  }

  lemma {:induction false} PolicyAccess(
    w: World, page: Page, readers: seq<string>, writers: seq<string>, actor: Actor, op: Operation, fold: Folding)
    requires PolicyPage(w, page) && fold("editor") == "editor" && fold("reader") == "reader"
    requires readers == ["alice", "carol"] && writers == ["carol"]
    requires actor in {Alice(), Bob(), Carol()}
    ensures CanAccess(w, page, actor, op, fold) <==> actor == Carol() || (actor == Alice() && op.ReadPage?)
  {
    ActorsApart(actor);
    FixtureAccess(w, page, readers, writers, Some((readers, writers)), actor, op, fold);
    NoAdministrators(w, page, actor, fold);
    ReadersAmong(readers, actor);
    DifferentActors();
  }

  lemma DifferentActors()
    ensures Alice() != Bob() && Alice() != Carol() && Bob() != Carol()
  {
    assert Alice().userId[0] == 'a' && Bob().userId[0] == 'b' && Carol().userId[0] == 'c';
  }

  lemma RolesApart()
    ensures !AdminName("editor") && !AdminName("reader")
  {
  }

  lemma ActorsApart(actor: Actor)
    requires actor in {Alice(), Bob(), Carol()}
    ensures OrdinaryNames(actor.aliases)
    ensures "carol" in actor.aliases <==> actor == Carol()
    ensures "alice" in actor.aliases <==> actor == Alice()
    ensures actor.userId in {"alice", "bob", "carol"}
  {
  }

  /**
   * The three permission tasks: a denied write for alice, who may read; a denied read for bob; and
   * an allowed write for carol, who owns the page.
   */
  lemma {:induction false} PermissionTasks(w: World, page: Page, fold: Folding, title: Option<string>, body: Option<string>)
    requires Coherent(w) && PolicyPage(w, page) && fold("editor") == "editor" && fold("reader") == "reader"
    ensures var current := Version(page.version);
      && GetPage(w, fold, Alice(), "page-6") == Page200(page)
      && PutPage(w, fold, Alice(), "page-6", current, title, body) == Reply(w, Failed(403))
      && GetPage(w, fold, Bob(), "page-6") == Failed(403)
      && PutPage(w, fold, Bob(), "page-6", current, title, body) == Reply(w, Failed(403))
      && PutPage(w, fold, Carol(), "page-6", current, title, body).response.Page200?
  {
    forall actor: Actor, op: Operation | actor in {Alice(), Bob(), Carol()}
      ensures CanAccess(w, page, actor, op, fold) <==> actor == Carol() || (actor == Alice() && op.ReadPage?)
    {
      PolicyAccess(w, page, ["alice", "carol"], ["carol"], actor, op, fold);
    }
    ActorsApart(Alice());
    ActorsApart(Bob());
    ActorsApart(Carol());
    PutOnCoherent(w, fold, Carol(), "page-6", Version(page.version), title, body);
  }

  function PolicyRecord(title: string, body: string): Page {
    PageRecord("page-6", "space-3", title, body, 1, "carol", map[])
  }

  /** A world with nothing but that page, its space and the three actors. */
  function PolicyWorld(page: Page): World {
    var acl := Acl(["alice", "carol"], ["carol"]);
    World(
      map["alice" := Obj(map["role" := Str("editor")]), "bob" := Obj(map["role" := Str("reader")]),
          "carol" := Obj(map["role" := Str("editor")])],
      map["space-3" := Obj(map["owner_id" := Str("carol")])],
      map["page-6" := page], map["page-6" := [page]],
      map["spaces" := Obj(map["space-3" := acl]), "pages" := Obj(map["page-6" := acl])])
  }

  /** The denied write on a concrete world: the answer is 403, although the page can be read. */
  lemma {:induction false} DeniedWriteExample(title: string, before: string, body: string, fold: Folding)
    requires fold("editor") == "editor" && fold("reader") == "reader"
    ensures var page := PolicyRecord(title, before);
      var w := PolicyWorld(page);
      && GetPage(w, fold, Alice(), "page-6") == Page200(page)
      && PutPage(w, fold, Alice(), "page-6", Version(1), None, Some(body)) == Reply(w, Failed(403))
  {
    var page := PolicyRecord(title, before);
    PolicyFits(page);
    PermissionTasks(PolicyWorld(page), page, fold, None, Some(body));
  }

  lemma {:induction false} PolicyFits(page: Page)
    requires page.id == "page-6" && page.spaceId == "space-3" && page.ownerId == "carol" && page.extra == map[] && page.version == 1
    ensures Coherent(PolicyWorld(page)) && PolicyPage(PolicyWorld(page), page)
  {
    var w := PolicyWorld(page);
    assert CoherentPage("page-6", page, [page]);
    assert w.permissions.Keys == {"spaces", "pages"};
  }
}
