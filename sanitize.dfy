/**
 * The export-side sanitisers of json_yaml.js: `filterObj` and `removeIds` drop the
 * identity and audit keys, `removeNulls` drops null-valued keys at every depth.
 */
module Sanitize {
  import opened Base
  import opened JsonValues

  /** The key list `filterObj` builds: six fixed keys, and `projectId` unless it is kept. */
  function KeysToRemove(excludeProjectId: bool): seq<string> {
    var keys := ["id", "_id", "branchId", "userId", "createdAt", "updatedAt"];
    if excludeProjectId then keys else keys + ["projectId"]
  }

  /** The keys a sanitised record must not carry, stated one by one. */
  predicate Stripped(k: string, excludeProjectId: bool) {
    || k == "id" || k == "_id" || k == "branchId" || k == "userId"
    || k == "createdAt" || k == "updatedAt"
    || (k == "projectId" && !excludeProjectId)
  }

  /** `filterObj`: the entries whose key is not in the removal list, in their order. */
  function FilterObj(entries: seq<Member>, excludeProjectId: bool): (r: seq<Member>)
    ensures forall m :: m in r <==> m in entries && !Stripped(m.key, excludeProjectId)
  {
    if entries == [] then []
    else
      var rest := FilterObj(entries[1..], excludeProjectId);
      assert forall m :: m in entries <==> m == entries[0] || m in entries[1..];
      if entries[0].key in KeysToRemove(excludeProjectId) then rest else [entries[0]] + rest
  }

  /** One element of a top-level array: objects (arrays included) are filtered. */
  function FilterElement(item: Json, excludeProjectId: bool): Json {
    if item.JObj? || item.JArr? then JObj(FilterObj(Entries(item), excludeProjectId)) else item
  }

  /** `removeIds`: filters a top-level object, or each object element of a top-level array. */
  function RemoveIds(v: Json, excludeProjectId: bool): Json {
    match v
    case JArr(xs) => JArr(seq(|xs|, i requires 0 <= i < |xs| => FilterElement(xs[i], excludeProjectId)))
    case JObj(ms) => JObj(FilterObj(ms, excludeProjectId))
    case _ => v
  }

  /** `r` is an object holding exactly the keys of `src` that are not stripped, with their values. */
  ghost predicate FilteredFrom(r: Json, src: seq<Member>, excludeProjectId: bool) {
    && r.JObj?
    && forall k :: Get(r.members, k) == if Stripped(k, excludeProjectId) then None else Get(src, k)
  }

  /** The removal list of `filterObj` holds exactly the stripped keys. */
  lemma KeysToRemoveStripped(k: string, excludeProjectId: bool)
    ensures k in KeysToRemove(excludeProjectId) <==> Stripped(k, excludeProjectId)
  {
  }

  lemma {:induction false} FilterObjGet(entries: seq<Member>, excludeProjectId: bool)
    ensures FilteredFrom(JObj(FilterObj(entries, excludeProjectId)), entries, excludeProjectId)
  {
    if entries != [] {
      var head := entries[0];
      var tail := entries[1..];
      FilterObjGet(tail, excludeProjectId);
      var rest := FilterObj(tail, excludeProjectId);
      assert entries == [head] + tail;
      KeysToRemoveStripped(head.key, excludeProjectId);
      forall k ensures Get(FilterObj(entries, excludeProjectId), k)
                       == if Stripped(k, excludeProjectId) then None else Get(entries, k) {
        GetCons(head, tail, k);
        if Stripped(head.key, excludeProjectId) {
          assert FilterObj(entries, excludeProjectId) == rest;
        } else {
          assert FilterObj(entries, excludeProjectId) == [head] + rest;
          GetCons(head, rest, k);
        }
      }
    }
  }

  /**
   * `removeIds` is one level deep and keeps array length: object elements are filtered,
   * array elements turn into index-keyed objects (Object.entries on an array), other
   * elements stay as they are; a top-level object is filtered; anything else is unchanged.
   * Kept keys keep their values exactly, so nested objects are never touched.
   */
  lemma RemoveIdsShallow(v: Json, excludeProjectId: bool)
    ensures v.JArr? ==> RemoveIds(v, excludeProjectId).JArr?
    ensures v.JArr? ==> |RemoveIds(v, excludeProjectId).items| == |v.items|
    ensures v.JArr? ==> forall i :: 0 <= i < |v.items| && v.items[i].JObj? ==>
              FilteredFrom(RemoveIds(v, excludeProjectId).items[i], v.items[i].members, excludeProjectId)
    ensures v.JArr? ==> forall i :: 0 <= i < |v.items| && v.items[i].JArr? ==>
              FilteredFrom(RemoveIds(v, excludeProjectId).items[i], Entries(v.items[i]), excludeProjectId)
    ensures v.JArr? ==> forall i :: 0 <= i < |v.items| && !v.items[i].JObj? && !v.items[i].JArr? ==>
              RemoveIds(v, excludeProjectId).items[i] == v.items[i]
    ensures v.JObj? ==> FilteredFrom(RemoveIds(v, excludeProjectId), v.members, excludeProjectId)
    ensures !v.JArr? && !v.JObj? ==> RemoveIds(v, excludeProjectId) == v
  {
    match v
    case JArr(xs) =>
      forall i | 0 <= i < |xs| && (xs[i].JObj? || xs[i].JArr?)
        ensures FilteredFrom(RemoveIds(v, excludeProjectId).items[i], Entries(xs[i]), excludeProjectId)
      {
        FilterObjGet(Entries(xs[i]), excludeProjectId);
      }
    case JObj(ms) =>
      FilterObjGet(ms, excludeProjectId);
    case _ =>
  }

  lemma {:induction false} FilterObjIdempotent(entries: seq<Member>, excludeProjectId: bool)
    ensures FilterObj(FilterObj(entries, excludeProjectId), excludeProjectId) == FilterObj(entries, excludeProjectId)
  {
    if entries != [] {
      FilterObjIdempotent(entries[1..], excludeProjectId);
      var rest := FilterObj(entries[1..], excludeProjectId);
      if entries[0].key !in KeysToRemove(excludeProjectId) {
        assert ([entries[0]] + rest)[1..] == rest;
      }
    }
  }

  /** Sanitising twice is sanitising once. */
  lemma RemoveIdsIdempotent(v: Json, excludeProjectId: bool)
    ensures RemoveIds(RemoveIds(v, excludeProjectId), excludeProjectId) == RemoveIds(v, excludeProjectId)
  {
    match v
    case JArr(xs) =>
      var once := RemoveIds(v, excludeProjectId);
      forall i | 0 <= i < |xs|
        ensures FilterElement(once.items[i], excludeProjectId) == once.items[i]
      {
        if xs[i].JObj? || xs[i].JArr? {
          FilterObjIdempotent(Entries(xs[i]), excludeProjectId);
        }
      }
    case JObj(ms) =>
      FilterObjIdempotent(ms, excludeProjectId);
    case _ =>
  }

  // ---- removeNulls ----

  /** The value `removeNulls` returns: null-valued keys dropped from every object at every depth. */
  function WithoutNulls(v: Json): Json
    decreases v
  {
    match v
    case JArr(xs) => JArr(CleanItems(xs))
    case JObj(ms) => JObj(CleanMembers(ms))
    case _ => v
  }

  /** `obj.map(removeNulls)`. */
  function CleanItems(xs: seq<Json>): seq<Json>
    decreases xs
  {
    if xs == [] then [] else CleanItems(xs[..|xs| - 1]) + [WithoutNulls(xs[|xs| - 1])]
  }

  /** The object the loop of `removeNulls` fills: `cleaned[key] = removeNulls(value)` for each non-null value. */
  function CleanMembers(ms: seq<Member>): seq<Member>
    decreases ms
  {
    if ms == [] then []
    else
      var rest := CleanMembers(ms[..|ms| - 1]);
      var m := ms[|ms| - 1];
      if m.value == JNull then rest else Put(rest, m.key, WithoutNulls(m.value))
  }

  /** `removeNulls`, as the loop of json_yaml.js writes it. */
  method RemoveNulls(obj: Json) returns (r: Json)
    ensures r == WithoutNulls(obj)
    decreases obj
  {
    match obj {
      case JArr(xs) =>
        var out: seq<Json> := [];
        for i := 0 to |xs|
          invariant out == CleanItems(xs[..i])
        {
          var c := RemoveNulls(xs[i]);
          assert xs[..i + 1][..i] == xs[..i];
          out := out + [c];
        }
        assert xs[..|xs|] == xs;
        r := JArr(out);
      case JObj(ms) =>
        var cleaned: seq<Member> := [];
        for i := 0 to |ms|
          invariant cleaned == CleanMembers(ms[..i])
        {
          assert ms[..i + 1][..i] == ms[..i];
          if ms[i].value != JNull {
            var c := RemoveNulls(ms[i].value);
            cleaned := Put(cleaned, ms[i].key, c);
          }
        }
        assert ms[..|ms|] == ms;
        r := JObj(cleaned);
      case _ =>
        r := obj;
    }
  }

  /** No object, at any depth, has a null-valued key (null array elements are allowed). */
  ghost predicate NoNulls(v: Json)
    decreases v
  {
    match v
    case JArr(xs) => forall i :: 0 <= i < |xs| ==> NoNulls(xs[i])
    case JObj(ms) => forall i :: 0 <= i < |ms| ==> ms[i].value != JNull && NoNulls(ms[i].value)
    case _ => true
  }

  /** Every object, at any depth, has distinct keys. */
  ghost predicate UniqueDeep(v: Json)
    decreases v
  {
    match v
    case JArr(xs) => forall i :: 0 <= i < |xs| ==> UniqueDeep(xs[i])
    case JObj(ms) => Unique(ms) && forall i :: 0 <= i < |ms| ==> UniqueDeep(ms[i].value)
    case _ => true
  }

  lemma {:induction false} CleanItemsAt(xs: seq<Json>)
    ensures |CleanItems(xs)| == |xs|
    ensures forall i :: 0 <= i < |xs| ==> CleanItems(xs)[i] == WithoutNulls(xs[i])
  {
    if xs != [] {
      CleanItemsAt(xs[..|xs| - 1]);
    }
  }

  /** Each member of `CleanMembers(ms)` is a non-null member of `ms`, cleaned. */
  lemma {:induction false} CleanMembersFrom(ms: seq<Member>)
    ensures forall m :: m in CleanMembers(ms) ==>
              exists m0 :: m0 in ms && m0.value != JNull && m == Member(m0.key, WithoutNulls(m0.value))
    ensures Unique(CleanMembers(ms))
  {
    if ms != [] {
      var init := ms[..|ms| - 1];
      var last := ms[|ms| - 1];
      CleanMembersFrom(init);
      var rest := CleanMembers(init);
      assert forall m0 :: m0 in init ==> m0 in ms;
      if last.value != JNull {
        PutMembers(rest, last.key, WithoutNulls(last.value));
        PutUnique(rest, last.key, WithoutNulls(last.value));
      }
    }
  }

  lemma WithoutNullsKeepsKind(v: Json)
    ensures WithoutNulls(v).JNull? <==> v.JNull?
    ensures WithoutNulls(v).JObj? <==> v.JObj?
    ensures WithoutNulls(v).JArr? <==> v.JArr?
  {
  }

  /** After `removeNulls` no key at any depth of objects has a null value, and keys are distinct. */
  lemma {:induction false} WithoutNullsClean(v: Json)
    ensures NoNulls(WithoutNulls(v))
    ensures UniqueDeep(WithoutNulls(v))
    decreases v
  {
    match v
    case JArr(xs) =>
      CleanItemsAt(xs);
      forall i | 0 <= i < |xs|
        ensures NoNulls(CleanItems(xs)[i]) && UniqueDeep(CleanItems(xs)[i])
      {
        WithoutNullsClean(xs[i]);
      }
    case JObj(ms) =>
      var cleaned := CleanMembers(ms);
      CleanMembersFrom(ms);
      forall i | 0 <= i < |cleaned|
        ensures cleaned[i].value != JNull && NoNulls(cleaned[i].value) && UniqueDeep(cleaned[i].value)
      {
        assert cleaned[i] in cleaned;
        var m0 :| m0 in ms && m0.value != JNull && cleaned[i] == Member(m0.key, WithoutNulls(m0.value));
        WithoutNullsKeepsKind(m0.value);
        WithoutNullsClean(m0.value);
      }
    case _ =>
  }

  /**
   * On an object with distinct keys, `removeNulls` keeps exactly the keys whose value is not
   * null, each with its value cleaned.
   */
  lemma {:induction false} CleanMembersGet(ms: seq<Member>, k: string)
    requires Unique(ms)
    ensures Get(CleanMembers(ms), k) ==
              match Get(ms, k)
              case Some(x) => if x == JNull then None else Some(WithoutNulls(x))
              case None => None
  {
    if ms != [] {
      var init := ms[..|ms| - 1];
      var last := ms[|ms| - 1];
      assert ms == init + [last];
      UniqueInit(ms);
      CleanMembersGet(init, k);
      GetSnoc(init, last, k);
      CleanMembersKeys(init);
      var rest := CleanMembers(init);
      if last.value != JNull {
        if last.key == k {
          GetPutSame(rest, k, WithoutNulls(last.value));
        } else {
          GetPutOther(rest, last.key, WithoutNulls(last.value), k);
        }
      }
    }
  }

  /** The keys of `CleanMembers(ms)` are keys of `ms`. */
  lemma CleanMembersKeys(ms: seq<Member>)
    ensures Keys(CleanMembers(ms)) <= Keys(ms)
  {
    CleanMembersFrom(ms);
    forall k | k in Keys(CleanMembers(ms)) ensures k in Keys(ms) {
      var m :| m in CleanMembers(ms) && m.key == k;
      var m0 :| m0 in ms && m0.value != JNull && m == Member(m0.key, WithoutNulls(m0.value));
    }
  }

  /** `removeNulls` keeps the length of every array and its null elements. */
  lemma RemoveNullsArray(xs: seq<Json>)
    ensures WithoutNulls(JArr(xs)).JArr?
    ensures |WithoutNulls(JArr(xs)).items| == |xs|
    ensures forall i :: 0 <= i < |xs| ==> WithoutNulls(JArr(xs)).items[i] == WithoutNulls(xs[i])
    ensures forall i :: 0 <= i < |xs| && xs[i] == JNull ==> WithoutNulls(JArr(xs)).items[i] == JNull
  {
    CleanItemsAt(xs);
  }

  /** A value with no null keys and distinct keys is left as it is. */
  lemma {:induction false} WithoutNullsFixpoint(v: Json)
    requires NoNulls(v) && UniqueDeep(v)
    ensures WithoutNulls(v) == v
    decreases v
  {
    match v
    case JArr(xs) =>
      CleanItemsAt(xs);
      forall i | 0 <= i < |xs| ensures CleanItems(xs)[i] == xs[i] {
        WithoutNullsFixpoint(xs[i]);
      }
    case JObj(ms) =>
      forall i | 0 <= i < |ms| ensures WithoutNulls(ms[i].value) == ms[i].value {
        WithoutNullsFixpoint(ms[i].value);
      }
      CleanMembersFixpoint(ms);
    case _ =>
  }

  lemma {:induction false} CleanMembersFixpoint(ms: seq<Member>)
    requires Unique(ms)
    requires forall i :: 0 <= i < |ms| ==> ms[i].value != JNull && WithoutNulls(ms[i].value) == ms[i].value
    ensures CleanMembers(ms) == ms
  {
    if ms != [] {
      var init := ms[..|ms| - 1];
      var last := ms[|ms| - 1];
      UniqueInit(ms);
      assert forall i :: 0 <= i < |init| ==> init[i] == ms[i];
      CleanMembersFixpoint(init);
      PutAbsent(init, last.key, last.value);
      assert ms == init + [last];
    }
  }

  /** `removeNulls` is idempotent. */
  lemma RemoveNullsIdempotent(v: Json)
    ensures WithoutNulls(WithoutNulls(v)) == WithoutNulls(v)
  {
    WithoutNullsClean(v);
    WithoutNullsFixpoint(WithoutNulls(v));
  }
}
