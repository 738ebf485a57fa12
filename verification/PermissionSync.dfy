/**
 * The permission catalog and the migration of the old coarse permissions: an uninterrupted sync gives every role
 * exactly the access its old permissions stood for, and a second one has nothing left to do.
 */
module PermissionSync {
  import opened Results

  type RoleId = nat

  datatype Resource =
    | Stats | Orders | Customers | Conversations | AbandonedCarts | Products | Media | Categories | Collections
    | Bundles | Reviews | Coupons | Expenses | Suppliers | Banners | Pages | Templates | Zones | Lists
    | Automation | Users | Audit | Settings | Content

  datatype Action =
    | View | Create | Edit | Delete | UpdateStatus | RefundMoney | Notes | Export | Approve | Reply | Import
    | Upload | Update | Manage

  /** "<resource>.<action>", or any other key an admin made up. */
  datatype Key = Key(resource: Resource, action: Action) | Custom(name: string)

  // ---------------------------------------------------------------- the catalog

  const CRUD: seq<Action> := [View, Create, Edit, Delete]

  function CatalogActions(r: Resource): seq<Action> {
    match r
    case Stats => [View]
    case Orders => [View, UpdateStatus, RefundMoney, Notes, Export, Delete]
    case Customers => [View, Edit, Delete, Approve, Export]
    case Conversations => [View, Reply]
    case AbandonedCarts => [View]
    case Products => [View, Create, Edit, Delete, Import, Export]
    case Media => [Upload]
    case Categories => CRUD
    case Collections => CRUD
    case Bundles => CRUD
    case Reviews => [View, Edit, Delete]
    case Coupons => CRUD
    case Expenses => CRUD
    case Suppliers => CRUD
    case Banners => CRUD
    case Pages => [View, Edit]
    case Templates => [View, Edit]
    case Zones => CRUD
    case Lists => CRUD
    case Automation => [View, Edit]
    case Users => [View, Create, Edit]
    case Audit => [View]
    case Settings => [View, Edit]
    case Content => []
  }

  predicate InCatalog(k: Key) {
    k.Key? && k.action in CatalogActions(k.resource)
  }

  function PermissionCatalog(): set<Key> {
    set r: Resource, a: Action | a in CatalogActions(r) :: Key(r, a)
  }

  function Keys(r: Resource, actions: seq<Action>): seq<Key> {
    seq(|actions|, i requires 0 <= i < |actions| => Key(r, actions[i]))
  }

  const LEGACY_KEYS: set<Key> := {
    Key(Customers, Update), Key(Settings, Manage), Key(Users, Manage), Key(Lists, Manage), Key(Automation, Manage),
    Key(Coupons, Manage), Key(Content, Manage), Key(Expenses, Manage), Key(Suppliers, Manage)}

  /** What each legacy key expands to. */
  function LegacyExpansion(k: Key): seq<Key> {
    match k
    case Key(Customers, Update) => [Key(Customers, Edit), Key(Customers, Delete), Key(Conversations, Reply)]
    case Key(Settings, Manage) => [Key(Settings, View), Key(Settings, Edit), Key(Templates, View), Key(Templates, Edit)]
    case Key(Users, Manage) =>
      [Key(Users, View), Key(Users, Create), Key(Users, Edit), Key(Audit, View), Key(Customers, Approve)]
    case Key(Lists, Manage) =>
      [Key(Lists, View), Key(Lists, Create), Key(Lists, Edit), Key(Zones, View), Key(Zones, Create), Key(Zones, Edit)]
    case Key(Automation, Manage) => [Key(Automation, View), Key(Automation, Edit)]
    case Key(Coupons, Manage) => Keys(Coupons, CRUD)
    case Key(Content, Manage) => Keys(Banners, CRUD) + [Key(Pages, View), Key(Pages, Edit), Key(Media, Upload)]
    case Key(Expenses, Manage) => Keys(Expenses, CRUD)
    case Key(Suppliers, Manage) => Keys(Suppliers, CRUD)
    case _ => []
  }

  /** What kept keys used to imply before the split. */
  function ExtraGrants(k: Key): seq<Key> {
    match k
    case Key(Orders, View) => [Key(Orders, Export)]
    case Key(Orders, UpdateStatus) => [Key(Orders, Notes)]
    case Key(Customers, View) => [Key(Customers, Export), Key(Conversations, View), Key(AbandonedCarts, View)]
    case Key(Products, View) =>
      [Key(Products, Export), Key(Categories, View), Key(Collections, View), Key(Bundles, View), Key(Reviews, View)]
    case Key(Products, Edit) =>
      [Key(Products, Create), Key(Products, Delete), Key(Products, Import), Key(Media, Upload)]
      + Keys(Categories, [Create, Edit, Delete]) + Keys(Collections, [Create, Edit, Delete])
      + Keys(Bundles, [Create, Edit, Delete]) + Keys(Reviews, [Edit, Delete])
    case _ => []
  }

  function Expansion(k: Key, preSplit: bool): seq<Key> {
    LegacyExpansion(k) + if preSplit then ExtraGrants(k) else []
  }

  lemma CatalogMembers(k: Key)
    ensures k in PermissionCatalog() <==> InCatalog(k)
  {
    if InCatalog(k) { assert Key(k.resource, k.action) in PermissionCatalog(); }
  }

  /** Every target of the migration is in the catalog, and no legacy key is: nothing granted is deleted again. */
  lemma ExpansionsAreCatalogKeys(k: Key, preSplit: bool, target: Key)
    requires target in Expansion(k, preSplit)
    ensures InCatalog(target) && target !in LEGACY_KEYS
  {
    if target in LegacyExpansion(k) {
      LegacyTargets(k, target);
    } else {
      ExtraTargets(k, target);
    }
    LegacyNotInCatalog(target);
  }

  lemma LegacyTargets(k: Key, target: Key)
    requires target in LegacyExpansion(k)
    ensures InCatalog(target) && k in LEGACY_KEYS
  {
    LegacySource(k);
    if k.resource in {Coupons, Expenses, Suppliers} {
      KeysMember(k.resource, CRUD, target);
    } else if k.resource == Content {
      ContentTargets(target);
    } else {
      ListedTargets(k, target);
    }
  }

  lemma LegacySource(k: Key)
    requires LegacyExpansion(k) != []
    ensures k in LEGACY_KEYS
  {
  }

  lemma ContentTargets(target: Key)
    requires target in LegacyExpansion(Key(Content, Manage))
    ensures InCatalog(target)
  {
    if target in Keys(Banners, CRUD) { KeysMember(Banners, CRUD, target); }
  }

  lemma ListedTargets(k: Key, target: Key)
    requires k.Key? && k.resource !in {Coupons, Expenses, Suppliers, Content} && target in LegacyExpansion(k)
    ensures InCatalog(target)
  {
  }

  lemma ExtraTargets(k: Key, target: Key)
    requires target in ExtraGrants(k)
    ensures InCatalog(target)
  {
    if k == Key(Products, Edit) {
      if target in Keys(Categories, [Create, Edit, Delete]) { KeysMember(Categories, [Create, Edit, Delete], target); }
      else if target in Keys(Collections, [Create, Edit, Delete]) {
        KeysMember(Collections, [Create, Edit, Delete], target);
      }
      else if target in Keys(Bundles, [Create, Edit, Delete]) { KeysMember(Bundles, [Create, Edit, Delete], target); }
      else if target in Keys(Reviews, [Edit, Delete]) { KeysMember(Reviews, [Edit, Delete], target); }
    }
  }

  /** The catalog by action: what can be done to what. */
  predicate Offered(k: Key) {
    k.Key?
    && match k.action
       case View => k.resource != Media && k.resource != Content
       case Create => k.resource in {Products, Categories, Collections, Bundles, Coupons, Expenses, Suppliers,
                                     Banners, Zones, Lists, Users}
       case Edit => k.resource in {Customers, Products, Categories, Collections, Bundles, Reviews, Coupons, Expenses,
                                   Suppliers, Banners, Pages, Templates, Zones, Lists, Automation, Users, Settings}
       case Delete => k.resource in {Orders, Customers, Products, Categories, Collections, Bundles, Reviews, Coupons,
                                     Expenses, Suppliers, Banners, Zones, Lists}
       case UpdateStatus => k.resource == Orders
       case RefundMoney => k.resource == Orders
       case Notes => k.resource == Orders
       case Export => k.resource in {Orders, Customers, Products}
       case Approve => k.resource == Customers
       case Reply => k.resource == Conversations
       case Import => k.resource == Products
       case Upload => k.resource == Media
       case Update => false
       case Manage => false
  }

  lemma CatalogByAction(k: Key)
    ensures k in PermissionCatalog() <==> Offered(k)
  {
    CatalogMembers(k);
  }

  /** The legacy keys by what they turn into: which one the holder of `target` must have had. */
  predicate ReplacedBy(legacy: Key, target: Key) {
    target.Key?
    && match target.resource
       case Customers =>
         (legacy == Key(Customers, Update) && target.action in {Edit, Delete})
         || (legacy == Key(Users, Manage) && target.action == Approve)
       case Conversations => legacy == Key(Customers, Update) && target.action == Reply
       case Settings => legacy == Key(Settings, Manage) && target.action in {View, Edit}
       case Templates => legacy == Key(Settings, Manage) && target.action in {View, Edit}
       case Users => legacy == Key(Users, Manage) && target.action in {View, Create, Edit}
       case Audit => legacy == Key(Users, Manage) && target.action == View
       case Lists => legacy == Key(Lists, Manage) && target.action in {View, Create, Edit}
       case Zones => legacy == Key(Lists, Manage) && target.action in {View, Create, Edit}
       case Automation => legacy == Key(Automation, Manage) && target.action in {View, Edit}
       case Coupons => legacy == Key(Coupons, Manage) && target.action in {View, Create, Edit, Delete}
       case Expenses => legacy == Key(Expenses, Manage) && target.action in {View, Create, Edit, Delete}
       case Suppliers => legacy == Key(Suppliers, Manage) && target.action in {View, Create, Edit, Delete}
       case Banners => legacy == Key(Content, Manage) && target.action in {View, Create, Edit, Delete}
       case Pages => legacy == Key(Content, Manage) && target.action in {View, Edit}
       case Media => legacy == Key(Content, Manage) && target.action == Upload
       case _ => false
  }

  lemma KeysOf(r: Resource, actions: seq<Action>, k: Key)
    ensures k in Keys(r, actions) <==> k.Key? && k.resource == r && k.action in actions
  {
    if k.Key? && k.resource == r && k.action in actions {
      var i :| 0 <= i < |actions| && actions[i] == k.action;
      assert Keys(r, actions)[i] == k;
    }
  }

  lemma LegacyByTarget(legacy: Key, target: Key)
    ensures target in LegacyExpansion(legacy) <==> ReplacedBy(legacy, target)
  {
    if legacy.Key? && legacy.resource in {Coupons, Expenses, Suppliers} {
      KeysOf(legacy.resource, CRUD, target);
    } else if legacy == Key(Content, Manage) {
      KeysOf(Banners, CRUD, target);
    } else {
      ListedByTarget(legacy, target);
    }
  }

  lemma ListedByTarget(legacy: Key, target: Key)
    requires !(legacy.Key? && legacy.resource in {Coupons, Expenses, Suppliers}) && legacy != Key(Content, Manage)
    ensures target in LegacyExpansion(legacy) <==> ReplacedBy(legacy, target)
  {
  }

  /** What a kept key stood for before the split, by what it turns into. */
  predicate ImpliedBy(source: Key, target: Key) {
    target.Key?
    && match target.resource
       case Orders =>
         (source == Key(Orders, View) && target.action == Export)
         || (source == Key(Orders, UpdateStatus) && target.action == Notes)
       case Customers => source == Key(Customers, View) && target.action == Export
       case Conversations => source == Key(Customers, View) && target.action == View
       case AbandonedCarts => source == Key(Customers, View) && target.action == View
       case Products =>
         (source == Key(Products, View) && target.action == Export)
         || (source == Key(Products, Edit) && target.action in {Create, Delete, Import})
       case Media => source == Key(Products, Edit) && target.action == Upload
       case Reviews =>
         (source == Key(Products, View) && target.action == View)
         || (source == Key(Products, Edit) && target.action in {Edit, Delete})
       case _ =>
         target.resource in {Categories, Collections, Bundles}
         && ((source == Key(Products, View) && target.action == View)
             || (source == Key(Products, Edit) && target.action in {Create, Edit, Delete}))
  }

  lemma ExtraByTarget(source: Key, target: Key)
    ensures target in ExtraGrants(source) <==> ImpliedBy(source, target)
  {
    if source == Key(Products, Edit) { ProductEditByTarget(target); }
  }

  lemma ProductEditByTarget(target: Key)
    ensures target in ExtraGrants(Key(Products, Edit)) <==> ImpliedBy(Key(Products, Edit), target)
  {
    KeysOf(Categories, [Create, Edit, Delete], target);
    KeysOf(Collections, [Create, Edit, Delete], target);
    KeysOf(Bundles, [Create, Edit, Delete], target);
    KeysOf(Reviews, [Edit, Delete], target);
  }

  lemma KeysMember(r: Resource, actions: seq<Action>, k: Key)
    requires k in Keys(r, actions)
    ensures k.Key? && k.resource == r && k.action in actions
  {
  }

  lemma LegacyNotInCatalog(k: Key)
    ensures !(InCatalog(k) && k in LEGACY_KEYS)
  {
  }

  // ---------------------------------------------------------------- the migration

  datatype Access = Access(permissions: set<Key>, fullAdmin: Option<RoleId>, grants: set<(RoleId, Key)>)

  /** The foreign key of the grant table. */
  ghost predicate GrantsExist(a: Access) {
    forall g :: g in a.grants ==> g.1 in a.permissions
  }

  predicate SyncNeeded(a: Access) {
    !(PermissionCatalog() <= a.permissions) || a.permissions * LEGACY_KEYS != {}
  }

  predicate PreSplit(a: Access) {
    Key(Reviews, View) !in a.permissions
  }

  ghost predicate Expanded(held: set<(RoleId, Key)>, preSplit: bool, role: RoleId, k: Key) {
    exists old' :: (role, old') in held && k in Expansion(old', preSplit)
  }

  /** What a role's old permissions stood for, in the new catalog. */
  ghost predicate Entitled(a: Access, role: RoleId, k: Key) {
    ((role, k) in a.grants && k !in LEGACY_KEYS)
    || Expanded(a.grants, PreSplit(a), role, k)
    || (a.fullAdmin == Some(role) && InCatalog(k))
  }

  /** The result of an uninterrupted sync with work to do. */
  ghost predicate Migrated(a: Access, b: Access) {
    b.permissions == (a.permissions + PermissionCatalog()) - LEGACY_KEYS
    && b.fullAdmin == a.fullAdmin
    && forall role: RoleId, k :: (role, k) in b.grants <==> Entitled(a, role, k)
  }

  /** The migrated store holds no legacy key, is consistent, and needs no further sync. */
  lemma MigrationSettles(a: Access, b: Access)
    requires GrantsExist(a) && Migrated(a, b)
    ensures !SyncNeeded(b) && GrantsExist(b) && b.permissions * LEGACY_KEYS == {}
    ensures forall g :: g in b.grants ==> g.1 !in LEGACY_KEYS
    ensures forall k :: b.fullAdmin.Some? && InCatalog(k) ==> (b.fullAdmin.value, k) in b.grants
  {
    forall k | k in PermissionCatalog() ensures k in b.permissions {
      CatalogMembers(k);
      LegacyNotInCatalog(k);
    }
    forall g | g in b.grants ensures g.1 in b.permissions && g.1 !in LEGACY_KEYS {
      assert (g.0, g.1) in b.grants;
      EntitledKeysExist(a, g.0, g.1);
    }
    forall k | b.fullAdmin.Some? && InCatalog(k) ensures (b.fullAdmin.value, k) in b.grants {
      assert Entitled(a, b.fullAdmin.value, k);
    }
  }

  lemma EntitledKeysExist(a: Access, role: RoleId, k: Key)
    requires GrantsExist(a) && Entitled(a, role, k)
    ensures k in (a.permissions + PermissionCatalog()) - LEGACY_KEYS
  {
    CatalogMembers(k);
    LegacyNotInCatalog(k);
    if (role, k) in a.grants && k !in LEGACY_KEYS {
      assert (role, k).1 in a.permissions;
    } else if old' :| (role, old') in a.grants && k in Expansion(old', PreSplit(a)) {
      ExpansionsAreCatalogKeys(old', PreSplit(a), k);
    }
  }

  /**
   * Nobody other than full_admin gains or loses: an ordinary role keeps every key that still exists, each legacy
   * key is replaced by its expansion, and after the split nothing else is added.
   */
  lemma OrdinaryRolesKeepTheirAccess(a: Access, b: Access, role: RoleId, k: Key)
    requires Migrated(a, b) && a.fullAdmin != Some(role) && !PreSplit(a)
    ensures (role, k) in b.grants
            <==> ((role, k) in a.grants && k !in LEGACY_KEYS)
                 || exists old' :: old' in LEGACY_KEYS && (role, old') in a.grants && k in LegacyExpansion(old')
  {
    if (role, k) in b.grants && !((role, k) in a.grants && k !in LEGACY_KEYS) {
      var old' :| (role, old') in a.grants && k in Expansion(old', PreSplit(a));
      LegacyTargets(old', k);
    }
    if old' :| old' in LEGACY_KEYS && (role, old') in a.grants && k in LegacyExpansion(old') {
      assert k in Expansion(old', PreSplit(a));
    }
  }

  /**
   * What an ordinary role may do after the first sync: what it kept, what its legacy keys turn into, and, when the
   * coarse keys are only now split, what its kept keys stood for.
   */
  lemma OrdinaryRoleEndsWith(a: Access, b: Access, role: RoleId, k: Key)
    requires Migrated(a, b) && a.fullAdmin != Some(role)
    ensures (role, k) in b.grants
            <==> ((role, k) in a.grants && k !in LEGACY_KEYS)
                 || (exists held :: (role, held) in a.grants
                       && (ReplacedBy(held, k) || (Key(Reviews, View) !in a.permissions && ImpliedBy(held, k))))
  {
    forall held: Key ensures k in Expansion(held, PreSplit(a))
        <==> ReplacedBy(held, k) || (Key(Reviews, View) !in a.permissions && ImpliedBy(held, k))
    {
      LegacyByTarget(held, k);
      ExtraByTarget(held, k);
    }
  }

  /** full_admin ends with the whole catalog, and beyond it only with what it had that is not legacy. */
  lemma FullAdminEndsWith(a: Access, b: Access, role: RoleId, k: Key)
    requires Migrated(a, b) && a.fullAdmin == Some(role)
    ensures (role, k) in b.grants <==> Offered(k) || ((role, k) in a.grants && k !in LEGACY_KEYS)
  {
    CatalogByAction(k);
    CatalogMembers(k);
    if held :| (role, held) in a.grants && k in Expansion(held, PreSplit(a)) {
      ExpansionsAreCatalogKeys(held, PreSplit(a), k);
    }
  }

  /** There is work exactly when a catalog key is missing or a legacy key is left. */
  lemma SyncNeededIff(a: Access)
    ensures SyncNeeded(a)
            <==> (exists k :: Offered(k) && k !in a.permissions) || (exists k :: k in LEGACY_KEYS && k in a.permissions)
  {
    forall k: Key ensures k in PermissionCatalog() <==> Offered(k) { CatalogByAction(k); }
    if a.permissions * LEGACY_KEYS != {} {
      var k :| k in a.permissions * LEGACY_KEYS;
      assert k in LEGACY_KEYS && k in a.permissions;
    }
    if k :| k in LEGACY_KEYS && k in a.permissions { assert k in a.permissions * LEGACY_KEYS; }
  }

  // ---------------------------------------------------------------- the service

  class PermissionsService {
    var permissions: set<Key>
    var fullAdmin: Option<RoleId>
    var grants: set<(RoleId, Key)>

    ghost function Current(): Access
      reads this
    {
      Access(permissions, fullAdmin, grants)
    }

    constructor (permissions: set<Key>, fullAdmin: Option<RoleId>, grants: set<(RoleId, Key)>)
      ensures Current() == Access(permissions, fullAdmin, grants)
    {
      this.permissions, this.fullAdmin, this.grants := permissions, fullAdmin, grants;
    }

    method SyncPermissionCatalog() returns (wrote: bool)
      requires GrantsExist(Current())
      modifies this
      ensures wrote == SyncNeeded(old(Current()))
      ensures if wrote then Migrated(old(Current()), Current()) else Current() == old(Current())
      ensures GrantsExist(Current()) && !SyncNeeded(Current())
    {
      ghost var a := Current();
      var missing := PermissionCatalog() - permissions;
      var legacyRows := permissions * LEGACY_KEYS;
      var preSplit := Key(Reviews, View) !in permissions;
      if missing == {} && legacyRows == {} {
        assert PermissionCatalog() <= permissions;
        return false;
      }
      permissions := permissions + missing;
      if legacyRows != {} || preSplit {
        GrantExpansions(preSplit);
      } else {
        NothingToExpand(a);
      }
      if fullAdmin.Some? {
        grants := grants + set k | k in PermissionCatalog() :: (fullAdmin.value, k);
      }
      if legacyRows != {} {
        grants := set g | g in grants && g.1 !in legacyRows;
        permissions := permissions - legacyRows;
      }
      SyncIsMigration(a, Current());
      MigrationSettles(a, Current());
      return true;
    }

    /** The inner loop: the rows a holder of one source key is given. */
    method GrantsFor(holder: (RoleId, Key), preSplit: bool) returns (rows: set<(RoleId, Key)>)
      requires PermissionCatalog() <= permissions
      ensures RowsFor(rows, holder.0, Expansion(holder.1, preSplit))
    {
      var targets := Expansion(holder.1, preSplit);
      rows := {};
      for i := 0 to |targets|
        invariant RowsFor(rows, holder.0, targets[..i])
      {
        TargetIsKept(holder.1, preSplit, targets[i], permissions);
        if targets[i] in permissions {
          OneMoreRow(rows, holder.0, targets, i);
          rows := rows + {(holder.0, targets[i])};
        }
      }
      assert targets[..|targets|] == targets;
    }

    /** The nested loop over the holders of source keys and the targets of each. */
    method GrantExpansions(preSplit: bool)
      requires PermissionCatalog() <= permissions
      modifies this`grants
      ensures forall role: RoleId, k :: (role, k) in grants <==>
                (role, k) in old(grants) || Expanded(old(grants), preSplit, role, k)
    {
      var holders := grants;
      var todo := holders;
      var added := {};
      while todo != {}
        invariant todo <= holders && grants == holders
        invariant forall role: RoleId, k :: (role, k) in added <==> Expanded(holders - todo, preSplit, role, k)
      {
        var holder :| holder in todo;
        var rows := GrantsFor(holder, preSplit);
        OneMoreHolder(holders - todo, holder, preSplit);
        assert holders - (todo - {holder}) == (holders - todo) + {holder};
        added := added + rows;
        todo := todo - {holder};
      }
      assert holders - todo == holders;
      grants := grants + added;
    }
  }

  /** The rows give the role exactly the keys. */
  ghost predicate RowsFor(rows: set<(RoleId, Key)>, holder: RoleId, keys: seq<Key>) {
    forall role: RoleId, k :: (role, k) in rows <==> role == holder && k in keys
  }

  lemma OneMoreRow(rows: set<(RoleId, Key)>, holder: RoleId, keys: seq<Key>, i: nat)
    requires i < |keys| && RowsFor(rows, holder, keys[..i])
    ensures RowsFor(rows + {(holder, keys[i])}, holder, keys[..i + 1])
  {
    assert keys[..i + 1] == keys[..i] + [keys[i]];
  }

  lemma TargetIsKept(source: Key, preSplit: bool, target: Key, permissions: set<Key>)
    requires target in Expansion(source, preSplit) && PermissionCatalog() <= permissions
    ensures target in permissions
  {
    ExpansionsAreCatalogKeys(source, preSplit, target);
    CatalogMembers(target);
  }

  lemma OneMoreHolder(done: set<(RoleId, Key)>, holder: (RoleId, Key), preSplit: bool)
    ensures forall role: RoleId, k :: Expanded(done + {holder}, preSplit, role, k)
              <==> Expanded(done, preSplit, role, k) || (role == holder.0 && k in Expansion(holder.1, preSplit))
  {
    forall role: RoleId, k | role == holder.0 && k in Expansion(holder.1, preSplit)
      ensures Expanded(done + {holder}, preSplit, role, k)
    {
      assert (role, holder.1) in done + {holder};
    }
  }

  lemma NothingToExpand(a: Access)
    requires GrantsExist(a) && a.permissions * LEGACY_KEYS == {} && !PreSplit(a)
    ensures forall role: RoleId, k :: !Expanded(a.grants, PreSplit(a), role, k)
  {
    forall g, k | g in a.grants ensures k !in Expansion(g.1, PreSplit(a)) {
      assert g.1 in a.permissions && g.1 !in a.permissions * LEGACY_KEYS;
      if k in LegacyExpansion(g.1) { LegacyTargets(g.1, k); }
    }
  }

  /** The statements of the sync, in order, amount to the migration. */
  lemma SyncIsMigration(a: Access, b: Access)
    requires GrantsExist(a) && b.fullAdmin == a.fullAdmin
    requires b.permissions == (a.permissions + (PermissionCatalog() - a.permissions)) - (a.permissions * LEGACY_KEYS)
    requires forall role: RoleId, k :: (role, k) in b.grants <==>
               k !in a.permissions * LEGACY_KEYS
               && ((role, k) in a.grants
                   || Expanded(a.grants, PreSplit(a), role, k)
                   || (a.fullAdmin == Some(role) && k in PermissionCatalog()))
    ensures Migrated(a, b)
  {
    forall k ensures k in PermissionCatalog() ==> k !in LEGACY_KEYS {
      CatalogMembers(k);
      LegacyNotInCatalog(k);
    }
    assert b.permissions == (a.permissions + PermissionCatalog()) - LEGACY_KEYS;
    forall role: RoleId, k ensures (role, k) in b.grants <==> Entitled(a, role, k) {
      CatalogMembers(k);
      if (role, k) in a.grants { assert (role, k).1 in a.permissions; }
      if old' :| (role, old') in a.grants && k in Expansion(old', PreSplit(a)) {
        ExpansionsAreCatalogKeys(old', PreSplit(a), k);
      }
      LegacyNotInCatalog(k);
    }
  }
}
