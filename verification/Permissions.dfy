/** Who may read and write a page: an interpreter for permission values of many shapes. */
module Permissions {
  import opened Options
  import opened Ordering
  import opened Values

  const READ_KEYS: seq<string> := ["read", "view", "reader", "readers", "viewers"]
  const WRITE_KEYS: seq<string> := ["write", "edit", "editor", "editors", "update", "manage", "admin", "admins"]
  const FULL_ACCESS_KEYS: seq<string> := ["users", "actors", "members", "allowed", "allow", "access"]
  const ADMIN_TOKENS: set<string> := {"admin", "administrator", "owner", "full", "all"}
  const RESOURCE_KEYS: seq<string> := ["permissions", "permission", "access"]

  /** A case folding of strings: `str.casefold`, of which nothing is assumed. */
  type Folding = string -> string

  datatype Operation = ReadPage | WritePage

  datatype Scope = PageScope | SpaceScope

  function SectionNames(scope: Scope): seq<string> {
    match scope
    case PageScope => ["page", "pages", "page_permissions", "pages_permissions"]
    case SpaceScope => ["space", "spaces", "space_permissions", "spaces_permissions"]
  }

  /** The user an actor header resolved to, and every name that user goes by. */
  datatype Actor = Actor(userId: string, aliases: set<string>)

  /** A permission value, and whether it was found under one actor's own name. */
  datatype Entry = Shared(value: Value) | ActorScoped(value: Value)

  predicate Named(name: string, aliases: set<string>) {
    name == "*" || name in aliases
  }

  /** `_actor_in_value`. */
  predicate ActorInValue(value: Value, aliases: set<string>) {
    match value
    case Str(s) => Named(s, aliases)
    case Obj(fields) => exists key | key in fields :: Named(key, aliases)
    case Arr(items) => exists i | 0 <= i < |items| :: ActorInValue(items[i], aliases)
    case Bool(b) => b
    case _ => false
  }

  /** A token that grants the operation. */
  predicate TokenGrants(token: string, op: Operation) {
    token in ADMIN_TOKENS || token in WRITE_KEYS || (op.ReadPage? && token in READ_KEYS)
  }

  /** `_scoped_value_grants`: the value stored directly under one actor's name. */
  predicate ScopedGrants(value: Value, op: Operation, fold: Folding) {
    match value
    case Bool(b) => b
    case Str(s) => TokenGrants(fold(s), op)
    case Arr(items) => exists i | 0 <= i < |items| :: items[i].Str? && TokenGrants(fold(items[i].s), op)
    case Obj(fields) =>
      || (exists k | 0 <= k < |WRITE_KEYS| :: Get(fields, WRITE_KEYS[k]) == Some(Bool(true)))
      || (op.ReadPage? && exists k | 0 <= k < |READ_KEYS| :: Get(fields, READ_KEYS[k]) == Some(Bool(true)))
      || ("role" in fields && fields["role"].Str? && TokenGrants(fold(fields["role"].s), op))
    case _ => false
  }

  function OperationKeys(op: Operation): seq<string> {
    if op.ReadPage? then READ_KEYS + WRITE_KEYS else WRITE_KEYS
  }

  /** `_entry_grants` on a value that is not bound to one actor. */
  predicate SharedGrants(entry: Value, aliases: set<string>, op: Operation, fold: Folding)
    decreases entry
  {
    match entry
    case Bool(b) => b
    case Str(s) => Named(s, aliases)
    case Arr(_) => ActorInValue(entry, aliases)
    case Obj(fields) =>
      || (exists alias | alias in aliases :: alias in fields && ScopedGrants(fields[alias], op, fold))
      || ("*" in fields && ScopedGrants(fields["*"], op, fold))
      || (exists k | 0 <= k < |FULL_ACCESS_KEYS| ::
            FULL_ACCESS_KEYS[k] in fields && ActorInValue(fields[FULL_ACCESS_KEYS[k]], aliases))
      || (exists k | 0 <= k < |OperationKeys(op)| ::
            OperationKeys(op)[k] in fields && ActorInValue(fields[OperationKeys(op)[k]], aliases))
      || (exists k | 0 <= k < |RESOURCE_KEYS| ::
            RESOURCE_KEYS[k] in fields && SharedGrants(fields[RESOURCE_KEYS[k]], aliases, op, fold))
    case _ => false
  }

  predicate EntryGrants(entry: Entry, aliases: set<string>, op: Operation, fold: Folding) {
    match entry
    case ActorScoped(value) => ScopedGrants(value, op, fold)
    case Shared(value) => SharedGrants(value, aliases, op, fold)
  }

  predicate AnyGrants(entries: seq<Entry>, aliases: set<string>, op: Operation, fold: Folding) {
    exists i | 0 <= i < |entries| :: EntryGrants(entries[i], aliases, op, fold)
  }

  // ---- Which entries apply ----

  /** The value a section holds for a resource, as a list of none or one. */
  function InSection(permissions: map<string, Value>, id: string): string -> seq<Value> {
    name =>
      if name in permissions && permissions[name].Obj? && id in permissions[name].fields
      then [permissions[name].fields[id]] else []
  }

  function Direct(permissions: map<string, Value>, id: string): seq<Value> {
    if id in permissions then [permissions[id]] else []
  }

  /** What one permission mapping says about a resource: its sections, then the resource's own key. */
  function Found(permissions: map<string, Value>, names: seq<string>, id: string): seq<Value> {
    FlatMap(InSection(permissions, id), names) + Direct(permissions, id)
  }

  function FoundUnder(permissions: map<string, Value>, names: seq<string>, id: string): string -> seq<Entry> {
    alias =>
      if alias in permissions && permissions[alias].Obj?
      then Wrap(Found(permissions[alias].fields, names, id), true) else []
  }

  function Wrap(values: seq<Value>, scoped: bool): (entries: seq<Entry>)
    ensures |entries| == |values|
    ensures forall i | 0 <= i < |values| ::
      entries[i] == if scoped then ActorScoped(values[i]) else Shared(values[i])
  {
    seq(|values|, i requires 0 <= i < |values| => if scoped then ActorScoped(values[i]) else Shared(values[i]))
  }

  /** The resource as a mapping; anything else carries no permissions of its own. */
  function ResourceFields(w: World, scope: Scope, id: string): map<string, Value> {
    match scope
    case PageScope => if id in w.pages then PageFields(w.pages[id]) else map[]
    case SpaceScope => if id in w.spaces && w.spaces[id].Obj? then w.spaces[id].fields else map[]
  }

  function OwnEntries(fields: map<string, Value>): string -> seq<Entry> {
    key => if key in fields then [Shared(fields[key])] else []
  }

  /** `_permission_entries`. The order of a user's aliases is free in the source; here they are sorted. */
  function EntriesFor(w: World, scope: Scope, id: string, actor: Actor): seq<Entry> {
    Wrap(Found(w.permissions, SectionNames(scope), id), false)
    + FlatMap(FoundUnder(w.permissions, SectionNames(scope), id), SortedIds(actor.aliases))
    + FlatMap(OwnEntries(ResourceFields(w, scope, id)), RESOURCE_KEYS)
  }

  /** The loop over section names, and the resource's own key after it. */
  method CollectFound(permissions: map<string, Value>, names: seq<string>, id: string) returns (values: seq<Value>)
    ensures values == Found(permissions, names, id)
  {
    values := [];
    for i := 0 to |names|
      invariant values == FlatMap(InSection(permissions, id), names[..i])
    {
      FlatMapNext(InSection(permissions, id), names, i);
      var name := names[i];
      if name in permissions && permissions[name].Obj? && id in permissions[name].fields {
        values := values + [permissions[name].fields[id]];
      }
    }
    FlatMapAll(InSection(permissions, id), names);
    if id in permissions {
      values := values + [permissions[id]];
    }
  }

  /** The loop over the actor's names. */
  method CollectUnder(permissions: map<string, Value>, names: seq<string>, id: string, aliases: seq<string>)
    returns (entries: seq<Entry>)
    ensures entries == FlatMap(FoundUnder(permissions, names, id), aliases)
  {
    entries := [];
    ghost var under := FoundUnder(permissions, names, id);
    for i := 0 to |aliases|
      invariant entries == FlatMap(under, aliases[..i])
    {
      FlatMapNext(under, aliases, i);
      if aliases[i] in permissions && permissions[aliases[i]].Obj? {
        var values := CollectFound(permissions[aliases[i]].fields, names, id);
        entries := entries + Wrap(values, true);
      }
    }
    FlatMapAll(under, aliases);
  }

  /** The loop over the keys under which a resource carries its own permissions. */
  method CollectOwn(fields: map<string, Value>, keys: seq<string>) returns (entries: seq<Entry>)
    ensures entries == FlatMap(OwnEntries(fields), keys)
  {
    entries := [];
    for i := 0 to |keys|
      invariant entries == FlatMap(OwnEntries(fields), keys[..i])
    {
      FlatMapNext(OwnEntries(fields), keys, i);
      if keys[i] in fields {
        entries := entries + [Shared(fields[keys[i]])];
      }
    }
    FlatMapAll(OwnEntries(fields), keys);
  }

  method CollectEntries(w: World, scope: Scope, id: string, actor: Actor) returns (entries: seq<Entry>)
    ensures entries == EntriesFor(w, scope, id, actor)
  {
    var names := SectionNames(scope);
    var values := CollectFound(w.permissions, names, id);
    var under := CollectUnder(w.permissions, names, id, SortedIds(actor.aliases));
    var own := CollectOwn(ResourceFields(w, scope, id), RESOURCE_KEYS);
    entries := Wrap(values, false) + under + own;
  }

  // ---- Access to pages ----

  predicate GlobalAdmin(w: World, actor: Actor, fold: Folding) {
    actor.userId in w.users && w.users[actor.userId].Obj?
    && var user := w.users[actor.userId].fields;
       || Get(user, "is_admin") == Some(Bool(true))
       || Get(user, "admin") == Some(Bool(true))
       || ("role" in user && user["role"].Str? && fold(user["role"].s) in ADMIN_TOKENS)
  }

  /** When page and space both define entries, both must grant. */
  predicate SidesGrant(onPage: seq<Entry>, onSpace: seq<Entry>, aliases: set<string>, op: Operation, fold: Folding) {
    var pageGranted, spaceGranted := AnyGrants(onPage, aliases, op, fold), AnyGrants(onSpace, aliases, op, fold);
    if onPage != [] && onSpace != [] then pageGranted && spaceGranted else pageGranted || spaceGranted
  }

  /** `can_read_page` and `can_write_page`. */
  predicate CanAccess(w: World, page: Page, actor: Actor, op: Operation, fold: Folding) {
    || GlobalAdmin(w, actor, fold)
    || page.ownerId in actor.aliases
    || SidesGrant(EntriesFor(w, PageScope, page.id, actor), EntriesFor(w, SpaceScope, page.spaceId, actor),
                  actor.aliases, op, fold)
  }

  predicate SpaceOwner(w: World, spaceId: string, actor: Actor) {
    spaceId in w.spaces && w.spaces[spaceId].Obj?
    && var space := w.spaces[spaceId].fields;
       || ("owner_id" in space && space["owner_id"].Str? && space["owner_id"].s in actor.aliases)
       || ("admins" in space && ActorInValue(space["admins"], actor.aliases))
       || ("admins" !in space && "administrators" in space && ActorInValue(space["administrators"], actor.aliases))
  }

  predicate CanCreate(w: World, spaceId: string, actor: Actor, fold: Folding) {
    || GlobalAdmin(w, actor, fold)
    || SpaceOwner(w, spaceId, actor)
    || AnyGrants(EntriesFor(w, SpaceScope, spaceId, actor), actor.aliases, WritePage, fold)
  }

  /** A shared permission value that grants writing grants reading, however deeply it nests. */
  lemma {:induction false} SharedWriteImpliesRead(entry: Value, aliases: set<string>, fold: Folding)
    requires SharedGrants(entry, aliases, WritePage, fold)
    ensures SharedGrants(entry, aliases, ReadPage, fold)
    decreases entry
  {
    if entry.Obj? {
      var fields := entry.fields;
      if k :| 0 <= k < |WRITE_KEYS| && WRITE_KEYS[k] in fields && ActorInValue(fields[WRITE_KEYS[k]], aliases) {
        var r := |READ_KEYS| + k;
        assert OperationKeys(ReadPage)[r] == WRITE_KEYS[k];
      } else if k :| 0 <= k < |RESOURCE_KEYS| && RESOURCE_KEYS[k] in fields
                     && SharedGrants(fields[RESOURCE_KEYS[k]], aliases, WritePage, fold) {
        SharedWriteImpliesRead(fields[RESOURCE_KEYS[k]], aliases, fold);
      }
    }
  }

  /** A value that names an actor under some of its names still does when the actor goes by more. */
  lemma {:induction false} NamedMonotone(value: Value, some: set<string>, more: set<string>)
    requires ActorInValue(value, some) && some <= more
    ensures ActorInValue(value, more)
    decreases value
  {
    if value.Obj? {
      var key :| key in value.fields && Named(key, some);
      assert Named(key, more);
    } else if value.Arr? {
      var i :| 0 <= i < |value.items| && ActorInValue(value.items[i], some);
      NamedMonotone(value.items[i], some, more);
    }
  }

  /** More names never take away what a shared permission value grants. */
  lemma {:induction false} SharedMonotone(entry: Value, some: set<string>, more: set<string>, op: Operation, fold: Folding)
    requires SharedGrants(entry, some, op, fold) && some <= more
    ensures SharedGrants(entry, more, op, fold)
    decreases entry
  {
    if entry.Arr? {
      NamedMonotone(entry, some, more);
    } else if entry.Obj? {
      var fields := entry.fields;
      if k :| 0 <= k < |FULL_ACCESS_KEYS| && FULL_ACCESS_KEYS[k] in fields && ActorInValue(fields[FULL_ACCESS_KEYS[k]], some) {
        NamedMonotone(fields[FULL_ACCESS_KEYS[k]], some, more);
      } else if k :| 0 <= k < |OperationKeys(op)| && OperationKeys(op)[k] in fields
                     && ActorInValue(fields[OperationKeys(op)[k]], some) {
        NamedMonotone(fields[OperationKeys(op)[k]], some, more);
      } else if k :| 0 <= k < |RESOURCE_KEYS| && RESOURCE_KEYS[k] in fields
                     && SharedGrants(fields[RESOURCE_KEYS[k]], some, op, fold) {
        SharedMonotone(fields[RESOURCE_KEYS[k]], some, more, op, fold);
      }
    }
  }

  // ---- An actor who goes by more names ----

  predicate MoreNames(some: Actor, more: Actor) {
    some.userId == more.userId && some.aliases <= more.aliases
  }

  /** Every entry that applies to an actor still applies when the actor goes by more names. */
  lemma {:induction false} EntriesMonotone(w: World, scope: Scope, id: string, some: Actor, more: Actor, entry: Entry)
    requires MoreNames(some, more) && entry in EntriesFor(w, scope, id, some)
    ensures entry in EntriesFor(w, scope, id, more)
  {
    var under := FoundUnder(w.permissions, SectionNames(scope), id);
    var few, many := SortedIds(some.aliases), SortedIds(more.aliases);
    InFlatMap(under, few, entry);
    InFlatMap(under, many, entry);
    if i :| 0 <= i < |few| && entry in under(few[i]) {
      assert few[i] in few && few[i] in many;
      var k :| 0 <= k < |many| && many[k] == few[i];
      assert entry in under(many[k]);
    }
  }

  lemma {:induction false} EntryMonotone(entry: Entry, some: set<string>, more: set<string>, op: Operation, fold: Folding)
    requires EntryGrants(entry, some, op, fold) && some <= more
    ensures EntryGrants(entry, more, op, fold)
  {
    if entry.Shared? {
      SharedMonotone(entry.value, some, more, op, fold);
    }
  }

  /** What is granted on one side, page or space, is still granted there. */
  lemma {:induction false} GrantsMonotone(w: World, scope: Scope, id: string, some: Actor, more: Actor, op: Operation, fold: Folding)
    requires MoreNames(some, more) && AnyGrants(EntriesFor(w, scope, id, some), some.aliases, op, fold)
    ensures AnyGrants(EntriesFor(w, scope, id, more), more.aliases, op, fold)
  {
    var few, many := EntriesFor(w, scope, id, some), EntriesFor(w, scope, id, more);
    var i :| 0 <= i < |few| && EntryGrants(few[i], some.aliases, op, fold);
    EntriesMonotone(w, scope, id, some, more, few[i]);
    var k :| 0 <= k < |many| && many[k] == few[i];
    EntryMonotone(many[k], some.aliases, more.aliases, op, fold);
  }

  /** Entries are defined on this side, page or space, and none of them grants. */
  predicate Withheld(w: World, scope: Scope, id: string, actor: Actor, op: Operation, fold: Folding) {
    var entries := EntriesFor(w, scope, id, actor);
    entries != [] && !AnyGrants(entries, actor.aliases, op, fold)
  }

  /**
   * When more names keep access to a page: exactly when they make the actor an administrator or
   * the owner, or leave no side defined without a grant. An entry that only a new name brings in
   * can take access away, because then both sides have to grant.
   */
  lemma {:induction false} AccessMonotoneExactly(w: World, page: Page, some: Actor, more: Actor, op: Operation, fold: Folding)
    requires MoreNames(some, more) && CanAccess(w, page, some, op, fold)
    ensures CanAccess(w, page, more, op, fold)
      <==> || GlobalAdmin(w, more, fold) || page.ownerId in more.aliases
           || (!Withheld(w, PageScope, page.id, more, op, fold) && !Withheld(w, SpaceScope, page.spaceId, more, op, fold))
  {
    if AnyGrants(EntriesFor(w, PageScope, page.id, some), some.aliases, op, fold) {
      GrantsMonotone(w, PageScope, page.id, some, more, op, fold);
    }
    if AnyGrants(EntriesFor(w, SpaceScope, page.spaceId, some), some.aliases, op, fold) {
      GrantsMonotone(w, SpaceScope, page.spaceId, some, more, op, fold);
    }
  }

  /** A world that grants the page's space to everybody, and refuses the page itself to the name "alice". */
  predicate RefusesAlice(w: World, page: Page) {
    && page.id == "p" && page.spaceId == "s" && page.ownerId == "o" && page.extra == map[]
    && w.users == map[] && w.spaces == map[] && w.pages == map["p" := page]
    && w.permissions == map["spaces" := Obj(map["s" := Bool(true)]), "alice" := Obj(map["p" := Bool(false)])]
  }

  lemma {:induction false} FoundDirectly(fields: map<string, Value>, names: seq<string>, id: string)
    requires forall i | 0 <= i < |names| :: names[i] !in fields
    ensures Found(fields, names, id) == Direct(fields, id)
  {
    FlatMapNone(InSection(fields, id), names);
  }

  lemma {:induction false} SpaceGranted(w: World, page: Page, actor: Actor, op: Operation, fold: Folding)
    requires RefusesAlice(w, page)
    ensures AnyGrants(EntriesFor(w, SpaceScope, page.spaceId, actor), actor.aliases, op, fold)
  {
    var names, id := SectionNames(SpaceScope), page.spaceId;
    InFlatMap(InSection(w.permissions, id), names, Bool(true));
    assert names[1] == "spaces" && InSection(w.permissions, id)(names[1]) == [Bool(true)];
    var found := Found(w.permissions, names, id);
    var i :| 0 <= i < |found| && found[i] == Bool(true);
    assert EntriesFor(w, SpaceScope, id, actor)[i] == Shared(Bool(true));
    assert EntryGrants(Shared(Bool(true)), actor.aliases, op, fold);
  }

  /** What stands under one name for the page. */
  lemma {:induction false} UnderName(w: World, page: Page, names: seq<string>, alias: string)
    requires RefusesAlice(w, page) && names == SectionNames(PageScope)
    ensures FoundUnder(w.permissions, names, page.id)(alias) == if alias == "alice" then [ActorScoped(Bool(false))] else []
  {
    if alias in w.permissions {
      FoundDirectly(w.permissions[alias].fields, names, page.id);
    }
  }

  lemma {:induction false} NothingElse(w: World, page: Page, names: seq<string>)
    requires RefusesAlice(w, page) && names == SectionNames(PageScope)
    ensures Found(w.permissions, names, page.id) == []
    ensures FlatMap(OwnEntries(ResourceFields(w, PageScope, page.id)), RESOURCE_KEYS) == []
  {
    FoundDirectly(w.permissions, names, page.id);
    var own := ResourceFields(w, PageScope, page.id);
    assert own == PageFields(page);
    forall i | 0 <= i < |RESOURCE_KEYS| ensures RESOURCE_KEYS[i] !in own {
      assert RESOURCE_KEYS[i] !in DECLARED_FIELDS;
    }
    FlatMapNone(OwnEntries(own), RESOURCE_KEYS);
  }

  lemma {:induction false} OnlyOne(f: string -> seq<Entry>, names: seq<string>, name: string, entry: Entry)
    requires forall x :: f(x) == if x == name then [entry] else []
    ensures FlatMap(f, names) == [] <==> name !in names
    ensures forall i | 0 <= i < |FlatMap(f, names)| :: FlatMap(f, names)[i] == entry
  {
    if names != [] {
      OnlyOne(f, names[..|names| - 1], name, entry);
    }
  }

  lemma {:induction false} OnlyUnderNames(w: World, scope: Scope, id: string, actor: Actor)
    requires Found(w.permissions, SectionNames(scope), id) == []
    requires FlatMap(OwnEntries(ResourceFields(w, scope, id)), RESOURCE_KEYS) == []
    ensures EntriesFor(w, scope, id, actor)
      == FlatMap(FoundUnder(w.permissions, SectionNames(scope), id), SortedIds(actor.aliases))
  {
  }

  /** On the page, only the name "alice" brings an entry. */
  lemma {:induction false} PageEntries(w: World, page: Page, actor: Actor)
    requires RefusesAlice(w, page)
    ensures var entries := EntriesFor(w, PageScope, page.id, actor);
      && (entries == [] <==> "alice" !in actor.aliases)
      && (forall i | 0 <= i < |entries| :: entries[i] == ActorScoped(Bool(false)))
  {
    var names, aliases := SectionNames(PageScope), SortedIds(actor.aliases);
    var under := FoundUnder(w.permissions, names, page.id);
    NothingElse(w, page, names);
    OnlyUnderNames(w, PageScope, page.id, actor);
    forall alias ensures under(alias) == if alias == "alice" then [ActorScoped(Bool(false))] else [] {
      UnderName(w, page, names, alias);
    }
    OnlyOne(under, aliases, "alice", ActorScoped(Bool(false)));
  }

  lemma {:induction false} RefusedBy(w: World, page: Page, actor: Actor, op: Operation, fold: Folding)
    requires !GlobalAdmin(w, actor, fold) && page.ownerId !in actor.aliases
    requires AnyGrants(EntriesFor(w, SpaceScope, page.spaceId, actor), actor.aliases, op, fold)
    requires var entries := EntriesFor(w, PageScope, page.id, actor);
      forall i | 0 <= i < |entries| :: entries[i] == ActorScoped(Bool(false))
    ensures CanAccess(w, page, actor, op, fold) <==> EntriesFor(w, PageScope, page.id, actor) == []
  {
    var entries := EntriesFor(w, PageScope, page.id, actor);
    assert forall i | 0 <= i < |entries| :: !EntryGrants(entries[i], actor.aliases, op, fold);
    assert !AnyGrants(entries, actor.aliases, op, fold);
  }

  /** One such loss: whoever goes by that name, among any others, has no access; everybody else has. */
  lemma {:induction false} NewNameTakesAccess(w: World, page: Page, actor: Actor, op: Operation, fold: Folding)
    requires RefusesAlice(w, page) && "o" !in actor.aliases
    ensures CanAccess(w, page, actor, op, fold) <==> "alice" !in actor.aliases
  {
    SpaceGranted(w, page, actor, op, fold);
    PageEntries(w, page, actor);
    RefusedBy(w, page, actor, op, fold);
  }

  /** Creating pages is not affected: it asks for one side only. */
  lemma {:induction false} CreateMonotone(w: World, spaceId: string, some: Actor, more: Actor, fold: Folding)
    requires MoreNames(some, more) && CanCreate(w, spaceId, some, fold)
    ensures CanCreate(w, spaceId, more, fold)
  {
    if AnyGrants(EntriesFor(w, SpaceScope, spaceId, some), some.aliases, WritePage, fold) {
      GrantsMonotone(w, SpaceScope, spaceId, some, more, WritePage, fold);
    } else if SpaceOwner(w, spaceId, some) {
      var space := w.spaces[spaceId].fields;
      if "admins" in space && ActorInValue(space["admins"], some.aliases) {
        NamedMonotone(space["admins"], some.aliases, more.aliases);
      } else if "admins" !in space && "administrators" in space && ActorInValue(space["administrators"], some.aliases) {
        NamedMonotone(space["administrators"], some.aliases, more.aliases);
      }
    }
  }

  /** Over every world and every permission value, an actor who may write a page may read it. */
  lemma WriteImpliesRead(w: World, page: Page, actor: Actor, fold: Folding)
    requires CanAccess(w, page, actor, WritePage, fold)
    ensures CanAccess(w, page, actor, ReadPage, fold)
  {
    EntriesWriteImpliesRead(EntriesFor(w, PageScope, page.id, actor), actor.aliases, fold);
    EntriesWriteImpliesRead(EntriesFor(w, SpaceScope, page.spaceId, actor), actor.aliases, fold);
  }

  lemma EntriesWriteImpliesRead(entries: seq<Entry>, aliases: set<string>, fold: Folding)
    ensures AnyGrants(entries, aliases, WritePage, fold) ==> AnyGrants(entries, aliases, ReadPage, fold)
  {
    if i :| 0 <= i < |entries| && EntryGrants(entries[i], aliases, WritePage, fold) {
      if entries[i].Shared? {
        SharedWriteImpliesRead(entries[i].value, aliases, fold);
      }
      assert EntryGrants(entries[i], aliases, ReadPage, fold);
    }
  }

  /**
   * What permissions depend on is kept: users, spaces and permissions, and of every page that was
   * there its id, space, owner and extra fields. Pages may be new, and may be edited.
   */
  predicate KeepsPermissions(w: World, v: World) {
    && w.users == v.users && w.spaces == v.spaces && w.permissions == v.permissions
    && forall id | id in w.pages :: id in v.pages && SameIdentity(w.pages[id], v.pages[id])
  }

  predicate SameIdentity(p: Page, q: Page) {
    p.id == q.id && p.spaceId == q.spaceId && p.ownerId == q.ownerId && p.extra == q.extra
  }

  lemma {:induction false} PageEntriesUnaffected(w: World, v: World, id: string, actor: Actor)
    requires KeepsPermissions(w, v) && (id in w.pages || id !in v.pages)
    ensures EntriesFor(w, PageScope, id, actor) == EntriesFor(v, PageScope, id, actor)
  {
    var a, b := ResourceFields(w, PageScope, id), ResourceFields(v, PageScope, id);
    forall i | 0 <= i < |RESOURCE_KEYS|
      ensures OwnEntries(a)(RESOURCE_KEYS[i]) == OwnEntries(b)(RESOURCE_KEYS[i])
    {
      if id in w.pages {
        assert SameIdentity(w.pages[id], v.pages[id]);
        assert RESOURCE_KEYS[i] !in DECLARED_FIELDS;
      }
    }
    FlatMapCong(OwnEntries(a), OwnEntries(b), RESOURCE_KEYS);
  }

  lemma SpaceEntriesUnaffected(w: World, v: World, id: string, actor: Actor)
    requires KeepsPermissions(w, v)
    ensures EntriesFor(w, SpaceScope, id, actor) == EntriesFor(v, SpaceScope, id, actor)
  {
    assert ResourceFields(w, SpaceScope, id) == ResourceFields(v, SpaceScope, id);
  }

  /** Editing titles and bodies, and creating other pages, never changes who may do what with a page. */
  lemma {:induction false} AccessUnaffected(w: World, v: World, p: Page, q: Page, actor: Actor, op: Operation, fold: Folding)
    requires KeepsPermissions(w, v) && SameIdentity(p, q) && (p.id in w.pages || p.id !in v.pages)
    ensures CanAccess(w, p, actor, op, fold) == CanAccess(v, q, actor, op, fold)
  {
    PageEntriesUnaffected(w, v, p.id, actor);
    SpaceEntriesUnaffected(w, v, p.spaceId, actor);
  }

  lemma {:induction false} FlatMapCong<A, B>(f: A -> seq<B>, g: A -> seq<B>, xs: seq<A>)
    requires forall i | 0 <= i < |xs| :: f(xs[i]) == g(xs[i])
    ensures FlatMap(f, xs) == FlatMap(g, xs)
  {
    if xs != [] {
      FlatMapCong(f, g, xs[..|xs| - 1]);
    }
  }
}
