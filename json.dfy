/**
 * JavaScript values as they travel between the backend, js-yaml and the file tree.
 * An object keeps its members in JavaScript's property order; reading a key finds its
 * first member, and assigning a key replaces that member in place or appends a new one.
 */
module JsonValues {
  import opened Base

  /** Numbers are integers here; strings are sequences of characters. */
  datatype Json =
    | JNull
    | JBool(b: bool)
    | JNum(n: int)
    | JStr(s: string)
    | JArr(items: seq<Json>)
    | JObj(members: seq<Member>)

  datatype Member = Member(key: string, value: Json)

  /** JavaScript truthiness; `None` is `undefined`. */
  predicate Truthy(v: Option<Json>) {
    match v
    case None => false
    case Some(j) =>
      match j
      case JNull => false
      case JBool(b) => b
      case JNum(n) => n != 0
      case JStr(s) => s != ""
      case _ => true
  }

  /** The set of keys of an object's members. */
  function Keys(ms: seq<Member>): set<string> {
    set m | m in ms :: m.key
  }

  /** Keys never repeat (every object JavaScript builds has this shape). */
  predicate Unique(ms: seq<Member>) {
    forall i, j :: 0 <= i < j < |ms| ==> ms[i].key != ms[j].key
  }

  /** The position of the first member with key `k`. */
  function IndexOf(ms: seq<Member>, k: string): (r: Option<nat>)
    ensures r.Some? ==> r.value < |ms| && ms[r.value].key == k
    ensures r.Some? ==> forall j :: 0 <= j < r.value ==> ms[j].key != k
    ensures r.None? <==> k !in Keys(ms)
  {
    if ms == [] then None
    else if ms[0].key == k then Some(0)
    else
      match IndexOf(ms[1..], k)
      case None => None
      case Some(i) => Some(i + 1)
  }

  /** `obj[k]` on an object: the value of its member `k`, or undefined. */
  function Get(ms: seq<Member>, k: string): Option<Json> {
    match IndexOf(ms, k)
    case None => None
    case Some(i) => Some(ms[i].value)
  }

  /** `obj[k] = v`: replaces member `k` in place, or appends it when absent. */
  function Put(ms: seq<Member>, k: string, v: Json): seq<Member> {
    match IndexOf(ms, k)
    case None => ms + [Member(k, v)]
    case Some(i) => ms[i := Member(k, v)]
  }

  /** `delete obj[k]`. */
  function Delete(ms: seq<Member>, k: string): seq<Member> {
    if ms == [] then []
    else (if ms[0].key == k then [] else [ms[0]]) + Delete(ms[1..], k)
  }

  /** The TypeError of reading property `k` of `what` ("undefined" or "null"). */
  function CannotRead(what: string, k: string): Error {
    TypeError("Cannot read properties of " + what + " (reading '" + k + "')")
  }

  /** Reading `v.k`: a TypeError on undefined and null, undefined on anything but an object. */
  function Read(v: Option<Json>, k: string): Result<Option<Json>> {
    match v
    case None => Err(CannotRead("undefined", k))
    case Some(JNull) => Err(CannotRead("null", k))
    case Some(JObj(ms)) => Ok(Get(ms, k))
    case Some(_) => Ok(None)
  }

  /** Reading `v?.k`: undefined on undefined and null instead of an error. */
  function ReadOpt(v: Option<Json>, k: string): Option<Json> {
    match v
    case Some(JObj(ms)) => Get(ms, k)
    case _ => None
  }

  /** Decimal digits of a natural number. */
  function Decimal(n: nat): (s: string)
    ensures |s| >= 1
    ensures forall i :: 0 <= i < |s| ==> '0' <= s[i] <= '9'
  {
    if n < 10 then [DigitChar(n)] else Decimal(n / 10) + [DigitChar(n % 10)]
  }

  function DigitChar(d: nat): char
    requires d < 10
  {
    "0123456789"[d]
  }

  /** `Object.entries(v)`: an object's members; indices for arrays and strings; nothing for other values. */
  function Entries(v: Json): seq<Member> {
    match v
    case JObj(ms) => ms
    case JArr(xs) => seq(|xs|, i requires 0 <= i < |xs| => Member(Decimal(i), xs[i]))
    case JStr(s) => seq(|s|, i requires 0 <= i < |s| => Member(Decimal(i), JStr([s[i]])))
    case _ => []
  }

  /** `String(j)`, the text a value turns into inside `a + b` and template literals. */
  function Str(j: Json): string
    decreases j
  {
    match j
    case JNull => "null"
    case JBool(b) => if b then "true" else "false"
    case JNum(n) => if n < 0 then "-" + Decimal(-n) else Decimal(n)
    case JStr(s) => s
    case JArr(xs) => JoinItems(xs)
    case JObj(_) => "[object Object]"
  }

  /** `xs.join(",")`, where null elements contribute nothing. */
  function JoinItems(xs: seq<Json>): string
    decreases xs
  {
    if xs == [] then ""
    else
      var last := if xs[|xs| - 1].JNull? then "" else Str(xs[|xs| - 1]);
      if |xs| == 1 then last else JoinItems(xs[..|xs| - 1]) + "," + last
  }

  /** `String(v)` for a value that may be undefined. */
  function ToStr(v: Option<Json>): string {
    match v
    case None => "undefined"
    case Some(j) => Str(j)
  }

  // ---- Properties of member access ----

  lemma GetPutSame(ms: seq<Member>, k: string, v: Json)
    ensures Get(Put(ms, k, v), k) == Some(v)
    ensures Keys(Put(ms, k, v)) == Keys(ms) + {k}
  {
    var r := Put(ms, k, v);
    match IndexOf(ms, k)
    case None =>
      assert r[|ms|].key == k;
      assert forall j :: 0 <= j < |ms| ==> r[j] == ms[j];
      assert Keys(r) == Keys(ms) + {k} by {
        forall x | x in Keys(r) ensures x in Keys(ms) + {k} {
          var m :| m in r && m.key == x;
        }
      }
    case Some(i) =>
      assert r[i].key == k;
      assert Keys(r) == Keys(ms) by {
        forall x | x in Keys(ms) ensures x in Keys(r) {
          var m :| m in ms && m.key == x;
          var j :| 0 <= j < |ms| && ms[j] == m;
          assert r[j].key == x;
        }
        forall x | x in Keys(r) ensures x in Keys(ms) {
          var m :| m in r && m.key == x;
          var j :| 0 <= j < |r| && r[j] == m;
          assert ms[j].key == x;
        }
      }
  }

  lemma GetPutOther(ms: seq<Member>, k: string, v: Json, k': string)
    requires k' != k
    ensures Get(Put(ms, k, v), k') == Get(ms, k')
  {
    match IndexOf(ms, k)
    case None =>
      GetSnoc(ms, Member(k, v), k');
      if k' !in Keys(ms) {
        assert IndexOf(ms, k').None?;
      }
    case Some(i) =>
      var r := ms[i := Member(k, v)];
      IndexOfSameKeys(r, ms, k');
      match IndexOf(ms, k') {
        case None =>
        case Some(j) => assert j != i && r[j] == ms[j];
      }
  }

  /** The first position of a key depends on the keys alone. */
  lemma {:induction false} IndexOfSameKeys(a: seq<Member>, b: seq<Member>, k: string)
    requires |a| == |b| && forall j :: 0 <= j < |a| ==> a[j].key == b[j].key
    ensures IndexOf(a, k) == IndexOf(b, k)
  {
    if a != [] {
      IndexOfSameKeys(a[1..], b[1..], k);
    }
  }

  lemma PutUnique(ms: seq<Member>, k: string, v: Json)
    requires Unique(ms)
    ensures Unique(Put(ms, k, v))
  {
    match IndexOf(ms, k)
    case None =>
      forall j | 0 <= j < |ms| ensures ms[j].key != k {
        assert ms[j] in ms;
      }
    case Some(i) =>
  }

  /** Reading a key of `[m] + rest`. */
  lemma GetCons(m: Member, rest: seq<Member>, k: string)
    ensures Get([m] + rest, k) == if m.key == k then Some(m.value) else Get(rest, k)
  {
    assert ([m] + rest)[1..] == rest;
  }

  lemma {:induction false} GetDelete(ms: seq<Member>, k: string, k': string)
    ensures Get(Delete(ms, k), k') == if k' == k then None else Get(ms, k')
  {
    if ms != [] {
      GetDelete(ms[1..], k, k');
      GetCons(ms[0], ms[1..], k');
      assert ms == [ms[0]] + ms[1..];
      if ms[0].key != k {
        GetCons(ms[0], Delete(ms[1..], k), k');
      } else {
        assert Delete(ms, k) == Delete(ms[1..], k);
      }
    }
  }

  /** Reading a key of `ms + [m]`. */
  lemma GetSnoc(ms: seq<Member>, m: Member, k: string)
    ensures Get(ms + [m], k) == if k in Keys(ms) then Get(ms, k) else if m.key == k then Some(m.value) else None
  {
    var r := ms + [m];
    assert forall j :: 0 <= j < |ms| ==> r[j] == ms[j];
    match IndexOf(ms, k) {
      case None =>
        forall j | 0 <= j < |ms| ensures ms[j].key != k {
          assert ms[j] in ms;
        }
        if m.key == k {
          assert r[|ms|].key == k;
        } else {
          assert k !in Keys(r);
        }
      case Some(i) =>
        assert r[i].key == k;
    }
  }

  /** What `Put` leaves in an object: the old members and the assigned one. */
  lemma PutMembers(ms: seq<Member>, k: string, v: Json)
    ensures forall m :: m in Put(ms, k, v) ==> m in ms || m == Member(k, v)
  {
    var r := Put(ms, k, v);
    forall m | m in r ensures m in ms || m == Member(k, v) {
      var j :| 0 <= j < |r| && r[j] == m;
      if j < |ms| && r[j] != Member(k, v) {
        assert ms[j] == m;
      }
    }
  }

  /** What `Delete` leaves in an object: old members with other keys, still without repeats. */
  lemma {:induction false} DeleteMembers(ms: seq<Member>, k: string)
    ensures forall m :: m in Delete(ms, k) ==> m in ms && m.key != k
    ensures Unique(ms) ==> Unique(Delete(ms, k))
  {
    if ms != [] {
      DeleteMembers(ms[1..], k);
      var rest := Delete(ms[1..], k);
      var head := if ms[0].key == k then [] else [ms[0]];
      assert Delete(ms, k) == head + rest;
      forall m | m in head + rest ensures m in ms && m.key != k {
        if m in rest {
          assert m in ms[1..];
        }
      }
      if Unique(ms) && head != [] {
        forall m | m in rest ensures m.key != ms[0].key {
          assert m in ms[1..];
          var j :| 0 <= j < |ms[1..]| && ms[1..][j] == m;
          assert ms[j + 1] == m;
        }
        var r := head + rest;
        forall i, j | 0 <= i < j < |r| ensures r[i].key != r[j].key {
          if i == 0 {
            assert r[j] == rest[j - 1];
            assert r[j] in rest;
          } else {
            assert r[i] == rest[i - 1] && r[j] == rest[j - 1];
          }
        }
      }
    }
  }

  /** Without its last member an object with distinct keys keeps them distinct and lacks that key. */
  lemma UniqueInit(ms: seq<Member>)
    requires Unique(ms) && ms != []
    ensures Unique(ms[..|ms| - 1])
    ensures ms[|ms| - 1].key !in Keys(ms[..|ms| - 1])
  {
    var init := ms[..|ms| - 1];
    forall m | m in init ensures m.key != ms[|ms| - 1].key {
      var j :| 0 <= j < |init| && init[j] == m;
      assert ms[j] == m;
    }
  }

  /** Assigning a key an object lacks appends it. */
  lemma PutAbsent(ms: seq<Member>, k: string, v: Json)
    requires k !in Keys(ms)
    ensures Put(ms, k, v) == ms + [Member(k, v)]
  {
  }

  /** In an object whose keys do not repeat, each member is what its key reads. */
  lemma GetAt(ms: seq<Member>, j: nat)
    requires Unique(ms) && j < |ms|
    ensures Get(ms, ms[j].key) == Some(ms[j].value)
  {
    var i := IndexOf(ms, ms[j].key);
    assert ms[j] in ms;
  }
}
