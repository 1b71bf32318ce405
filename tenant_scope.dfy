/** The tenant-scoping query extension of the Prisma service
    (`$allOperations` inside `tenantClient`): before any query on a model
    other than `Tenant` reaches the database, the arguments are rewritten so
    that filters are restricted to the ambient tenant and new rows are stamped
    with it. Arguments are modelled as the four keys the rewrite touches
    (`where`, `data`, `create`, `update`) plus everything else (`select`,
    `include`, `orderBy`, ...) in `rest`. */
module TenantScope {
  import opened Common

  /** A scalar as it appears in a filter or a data object. `Null` is the
      JSON null; `Other` stands for any value the rewrite never inspects. */
  datatype Value = Null | Str(s: string) | Num(n: int) | Bool(b: bool) | Other(json: string)

  /** A plain object: a filter (`where`), a row to write, or a stored row. */
  type Obj = map<string, Value>

  /** The `data` argument: one object, or an array of objects (`createMany`). */
  datatype Data = Single(obj: Obj) | Batch(items: seq<Obj>)

  datatype Args = Args(
    where: Option<Obj>,
    data: Option<Data>,
    create: Option<Obj>,
    update: Option<Obj>,
    rest: map<string, Value>)

  const TenantKey: string := "tenantId"
  const ExcludedModels: seq<string> := ["Tenant"]
  const WhereOps: seq<string> := [
    "findUnique", "findFirst", "findMany",
    "update", "updateMany",
    "delete", "deleteMany",
    "count", "aggregate", "groupBy"]
  const CreateOps: seq<string> := ["create", "createMany"]

  /** `store?.tenantId` taken as a condition: a tenant id scopes queries only
      when a context is bound and its id is a non-empty (truthy) string. */
  function AmbientTenant(store: Option<TenantContext>): (t: Option<string>)
    ensures t.Some? <==> store.Some? && store.value.tenantId != ""
    ensures t.Some? ==> t.value == store.value.tenantId
  {
    if store.Some? && store.value.tenantId != "" then Some(store.value.tenantId) else None
  }

  /** `{ ...o }`: spreading `undefined` gives the empty object. */
  function Spread(o: Option<Obj>): Obj {
    if o.Some? then o.value else map[]
  }

  /** `{ ...o, tenantId }`: the tenant key is written last and so wins. */
  function WithTenant(o: Option<Obj>, t: string): Obj {
    Spread(o)[TenantKey := Str(t)]
  }

  /** The `create`/`createMany` branch: arrays are stamped element by element
      (`data.map(...)`), anything else as one object. */
  function StampData(d: Option<Data>, t: string): Data {
    match d
    case Some(Batch(items)) =>
      Batch(seq(|items|, i requires 0 <= i < |items| => WithTenant(Some(items[i]), t)))
    case Some(Single(o)) => Single(WithTenant(Some(o), t))
    case None => Single(WithTenant(None, t))
  }

  /** The rewritten arguments handed to `query(args)`. */
  function ScopeArgs(model: string, operation: string, args: Args, store: Option<TenantContext>): (r: Args)
    ensures r.rest == args.rest
  {
    if model in ExcludedModels then args
    else match AmbientTenant(store) {
      case None => args
      case Some(t) =>
        var a1 := if operation in WhereOps then args.(where := Some(WithTenant(args.where, t))) else args;
        var a2 := if operation in CreateOps then a1.(data := Some(StampData(a1.data, t))) else a1;
        if operation == "upsert" then
          a2.(where := Some(WithTenant(a2.where, t)),
              create := Some(WithTenant(a2.create, t)),
              update := Some(Spread(a2.update)))
        else a2
    }
  }

  /** Equality-filter semantics: a row satisfies a filter when it holds every
      key of the filter with the same value (`null` matches a null column). */
  predicate Matches(row: Obj, filter: Obj) {
    forall k :: k in filter ==> k in row && row[k] == filter[k]
  }

  /** The objects a write operation would insert. */
  function Written(d: Option<Data>): seq<Obj> {
    match d
    case Some(Batch(items)) => items
    case Some(Single(o)) => [o]
    case None => []
  }

  /** `{ ...o, tenantId: t }` keeps every other key of `o` and sets the tenant. */
  predicate StampedFrom(r: Obj, o: Obj, t: string) {
    && r.Keys == o.Keys + {TenantKey}
    && r[TenantKey] == Str(t)
    && forall k :: k in o && k != TenantKey ==> r[k] == o[k]
  }

  lemma WithTenantStamps(o: Option<Obj>, t: string)
    ensures StampedFrom(WithTenant(o, t), Spread(o), t)
  {
  }

  // ----- properties of the rewrite -----

  /** The `Tenant` model is never rewritten, whatever context is bound. */
  lemma TenantModelForwarded(operation: string, args: Args, store: Option<TenantContext>)
    ensures ScopeArgs("Tenant", operation, args, store) == args
  {
  }

  /** With no context bound, or an empty tenant id, every query goes through as is. */
  lemma UnboundContextForwards(model: string, operation: string, args: Args, store: Option<TenantContext>)
    requires store.None? || store.value.tenantId == ""
    ensures ScopeArgs(model, operation, args, store) == args
  {
  }

  /** Read, update, delete and aggregate operations get `tenantId` added to
      their filter; every other filter key, and every other argument, is kept. */
  lemma WhereOperationScopesFilter(model: string, operation: string, args: Args, t: string)
    requires model !in ExcludedModels && operation in WhereOps && t != ""
    ensures var r := ScopeArgs(model, operation, args, Some(TenantContext(t)));
      && r.where.Some?
      && StampedFrom(r.where.value, Spread(args.where), t)
      && r.data == args.data && r.create == args.create && r.update == args.update
  {
    WithTenantStamps(args.where, t);
  }

  /** `update` and `updateMany` filter by tenant but do not touch `data`: a
      `tenantId` inside the update data reaches the database unchanged. */
  lemma UpdateDataNotStamped(model: string, args: Args, t: string)
    requires model !in ExcludedModels && t != ""
    ensures ScopeArgs(model, "update", args, Some(TenantContext(t))).data == args.data
    ensures ScopeArgs(model, "updateMany", args, Some(TenantContext(t))).data == args.data
  {
  }

  /** `create` and `createMany` stamp the tenant onto what they write: an array
      element by element (same length, same order, other fields kept), a single
      object as one. */
  lemma CreateOperationStampsData(model: string, operation: string, args: Args, t: string)
    requires model !in ExcludedModels && operation in CreateOps && t != ""
    ensures var r := ScopeArgs(model, operation, args, Some(TenantContext(t)));
      && r.where == args.where && r.create == args.create && r.update == args.update
      && r.data.Some?
      && (args.data.Some? && args.data.value.Batch? ==>
            && r.data.value.Batch?
            && |r.data.value.items| == |args.data.value.items|
            && forall i :: 0 <= i < |args.data.value.items| ==>
                 StampedFrom(r.data.value.items[i], args.data.value.items[i], t))
      && (args.data.Some? && args.data.value.Single? ==>
            r.data.value.Single? && StampedFrom(r.data.value.obj, args.data.value.obj, t))
      && (args.data.None? ==> r.data == Some(Single(map[TenantKey := Str(t)])))
  {
    var r := ScopeArgs(model, operation, args, Some(TenantContext(t)));
    if args.data.Some? && args.data.value.Batch? {
      var items := args.data.value.items;
      forall i | 0 <= i < |items|
        ensures StampedFrom(r.data.value.items[i], items[i], t)
      {
        WithTenantStamps(Some(items[i]), t);
      }
    } else if args.data.Some? {
      WithTenantStamps(Some(args.data.value.obj), t);
    }
  }

  /** `upsert` scopes its lookup and stamps its create branch; its update
      branch is copied with exactly its own keys and no tenant added. */
  lemma UpsertScopesLookupAndCreate(model: string, args: Args, t: string)
    requires model !in ExcludedModels && t != ""
    ensures var r := ScopeArgs(model, "upsert", args, Some(TenantContext(t)));
      && r.where.Some? && StampedFrom(r.where.value, Spread(args.where), t)
      && r.create.Some? && StampedFrom(r.create.value, Spread(args.create), t)
      && r.update == Some(Spread(args.update))
      && r.data == args.data
  {
    WithTenantStamps(args.where, t);
    WithTenantStamps(args.create, t);
  }

  /** An operation in none of the lists (for instance `findFirstOrThrow` or
      `createManyAndReturn`) is forwarded without any tenant restriction. */
  lemma UnlistedOperationForwarded(model: string, operation: string, args: Args, store: Option<TenantContext>)
    requires operation !in WhereOps && operation !in CreateOps && operation != "upsert"
    ensures ScopeArgs(model, operation, args, store) == args
  {
  }

  /** Removes a caller-supplied `tenantId` from the places the rewrite stamps. */
  function DropTenant(args: Args): Args {
    args.(where := if args.where.Some? then Some(args.where.value - {TenantKey}) else None,
          create := if args.create.Some? then Some(args.create.value - {TenantKey}) else None,
          data := match args.data
                  case Some(Single(o)) => Some(Single(o - {TenantKey}))
                  case Some(Batch(items)) =>
                    Some(Batch(seq(|items|, i requires 0 <= i < |items| => items[i] - {TenantKey})))
                  case None => None)
  }

  lemma WithTenantIgnoresTenant(o: Option<Obj>, t: string)
    ensures WithTenant(if o.Some? then Some(o.value - {TenantKey}) else None, t) == WithTenant(o, t)
  {
    var a := WithTenant(if o.Some? then Some(o.value - {TenantKey}) else None, t);
    var b := WithTenant(o, t);
    assert a.Keys == b.Keys;
    assert forall k :: k in a ==> a[k] == b[k];
  }

  /** A `tenantId` the caller puts in `where`, `data` or `create` makes no
      difference to what reaches the database for the operations that stamp
      that place: the ambient tenant is written over it. */
  lemma CallerTenantOverwritten(model: string, operation: string, args: Args, t: string)
    requires model !in ExcludedModels && t != ""
    requires operation in WhereOps || operation in CreateOps || operation == "upsert"
    ensures var ctx := Some(TenantContext(t));
      var r := ScopeArgs(model, operation, args, ctx);
      var r' := ScopeArgs(model, operation, DropTenant(args), ctx);
      && (operation in WhereOps || operation == "upsert" ==> r.where == r'.where)
      && (operation in CreateOps ==> r.data == r'.data)
      && (operation == "upsert" ==> r.create == r'.create)
  {
    WithTenantIgnoresTenant(args.where, t);
    WithTenantIgnoresTenant(args.create, t);
    if operation in CreateOps {
      match args.data
      case Some(Single(o)) =>
        WithTenantIgnoresTenant(Some(o), t);
      case Some(Batch(items)) =>
        var dropped := seq(|items|, i requires 0 <= i < |items| => items[i] - {TenantKey});
        var a := seq(|items|, i requires 0 <= i < |items| => WithTenant(Some(dropped[i]), t));
        var b := seq(|items|, i requires 0 <= i < |items| => WithTenant(Some(items[i]), t));
        forall i | 0 <= i < |items|
          ensures a[i] == b[i]
        {
          WithTenantIgnoresTenant(Some(items[i]), t);
        }
        assert a == b;
      case None =>
    }
  }

  lemma WithTenantTwice(o: Option<Obj>, t: string)
    ensures WithTenant(Some(WithTenant(o, t)), t) == WithTenant(o, t)
  {
  }

  /** Rewriting already-rewritten arguments under the same context changes nothing. */
  lemma {:induction false} ScopeIdempotent(model: string, operation: string, args: Args, store: Option<TenantContext>)
    ensures ScopeArgs(model, operation, ScopeArgs(model, operation, args, store), store)
         == ScopeArgs(model, operation, args, store)
  {
    if model !in ExcludedModels && AmbientTenant(store).Some? {
      var t := AmbientTenant(store).value;
      WithTenantTwice(args.where, t);
      WithTenantTwice(args.create, t);
      if operation in CreateOps && args.data.None? {
        WithTenantTwice(None, t);
      } else if operation in CreateOps && args.data.value.Single? {
        WithTenantTwice(Some(args.data.value.obj), t);
      } else if operation in CreateOps {
        var items := args.data.value.items;
        var once := seq(|items|, i requires 0 <= i < |items| => WithTenant(Some(items[i]), t));
        var twice := seq(|once|, i requires 0 <= i < |once| => WithTenant(Some(once[i]), t));
        forall i | 0 <= i < |items| ensures twice[i] == once[i] {
          WithTenantTwice(Some(items[i]), t);
        }
        assert twice == once;
      }
    }
  }

  /** Isolation: once a tenant is bound, a query on a tenant-owned model can
      only select rows carrying that tenant's id (even when the filter names
      another tenant's primary key or `tenantId`), and every object it writes
      carries that id. */
  lemma ScopedQueryTouchesOnlyTenantRows(model: string, operation: string, args: Args, t: string, row: Obj)
    requires model !in ExcludedModels && t != ""
    ensures var r := ScopeArgs(model, operation, args, Some(TenantContext(t)));
      && ((operation in WhereOps || operation == "upsert") && Matches(row, r.where.value) ==>
            TenantKey in row && row[TenantKey] == Str(t))
      && (operation in CreateOps ==>
            forall o :: o in Written(r.data) ==> TenantKey in o && o[TenantKey] == Str(t))
      && (operation == "upsert" ==> r.create.value[TenantKey] == Str(t))
  {
    var r := ScopeArgs(model, operation, args, Some(TenantContext(t)));
    if operation in WhereOps {
      WhereOperationScopesFilter(model, operation, args, t);
    }
    if operation == "upsert" {
      UpsertScopesLookupAndCreate(model, args, t);
    }
    if operation in CreateOps {
      CreateOperationStampsData(model, operation, args, t);
      forall o | o in Written(r.data)
        ensures TenantKey in o && o[TenantKey] == Str(t)
      {
        if args.data.Some? && args.data.value.Batch? {
          var i :| 0 <= i < |r.data.value.items| && r.data.value.items[i] == o;
        }
      }
    }
  }

  /** The filter a service writes, after scoping, selects exactly the rows that
      satisfy the service's own filter (minus any `tenantId` it named) and
      belong to the ambient tenant. */
  lemma ScopedFilterSelects(model: string, operation: string, args: Args, t: string, row: Obj)
    requires model !in ExcludedModels && operation in WhereOps && t != ""
    ensures var r := ScopeArgs(model, operation, args, Some(TenantContext(t)));
      var own := Spread(args.where) - {TenantKey};
      Matches(row, r.where.value) <==> Matches(row, own) && TenantKey in row && row[TenantKey] == Str(t)
  {
    var r := ScopeArgs(model, operation, args, Some(TenantContext(t)));
    WhereOperationScopesFilter(model, operation, args, t);
    var f := r.where.value;
    var g := Spread(args.where) - {TenantKey};
    if Matches(row, f) {
      forall k | k in g ensures k in row && row[k] == g[k] {
        assert k in f;
      }
      assert TenantKey in f;
    }
    if Matches(row, g) && TenantKey in row && row[TenantKey] == Str(t) {
      forall k | k in f ensures k in row && row[k] == f[k] {
        if k != TenantKey {
          assert k in g;
        }
      }
    }
  }
}
