/**
 * Parsed JSON as an inductive datatype, with the reading and writing
 * conventions the plugins rely on (the jsoncpp `Json::Value` used by the
 * RALF builders and the Thunder `JsonObject` used elsewhere agree on all
 * of them for well-typed documents):
 *
 * - reading an absent member, or a member of a non-object, gives null;
 * - writing a member of a null node first turns the node into an object;
 * - appending to a null node first turns it into an empty array.
 *
 * Text parsing and serialisation are not modelled: whether a string
 * parses is an input to the operations that parse.
 */
module JsonTree {
  import Text

  datatype Json =
    | JNull
    | JBool(b: bool)
    | JNum(n: int)
    | JStr(s: string)
    | JArr(items: seq<Json>)
    | JObj(fields: map<string, Json>)

  /** `HasLabel` / `isMember`. */
  predicate HasLabel(j: Json, key: string)
  {
    j.JObj? && key in j.fields
  }

  /** Const member access: absent members read as null. */
  function Get(j: Json, key: string): (r: Json)
    ensures HasLabel(j, key) ==> r == j.fields[key]
    ensures !HasLabel(j, key) ==> r == JNull
  {
    if HasLabel(j, key) then j.fields[key] else JNull
  }

  /** The members of an object node, or none. */
  function Fields(j: Json): map<string, Json>
  {
    if j.JObj? then j.fields else map[]
  }

  /** `node[key] = v`: other members are kept; a non-object node becomes an object. */
  function Set(j: Json, key: string, v: Json): (r: Json)
    ensures r.JObj? && r.fields == Fields(j)[key := v]
  {
    JObj(Fields(j)[key := v])
  }

  /** `removeMember` / `Remove`. */
  function RemoveMember(j: Json, key: string): (r: Json)
    ensures !HasLabel(r, key)
    ensures forall k :: k != key ==> Get(r, k) == Get(j, k)
  {
    if j.JObj? then JObj(j.fields - {key}) else j
  }

  lemma GetSet(j: Json, key: string, v: Json, other: string)
    ensures Get(Set(j, key, v), key) == v
    ensures other != key ==> Get(Set(j, key, v), other) == Get(j, other)
  {
  }

  /** The elements of an array node, or none. */
  function Items(j: Json): seq<Json>
  {
    if j.JArr? then j.items else []
  }

  /** `append(v)`: a non-array node becomes an array first. */
  function Append(j: Json, v: Json): (r: Json)
    ensures r.JArr? && r.items == Items(j) + [v]
  {
    JArr(Items(j) + [v])
  }

  /** jsoncpp `asString`; arrays and objects have no string value. */
  function AsString(j: Json): (r: string)
    ensures j.JStr? ==> r == j.s
    ensures j.JNull? ==> r == ""
  {
    match j
    case JStr(s) => s
    case JNull => ""
    case JBool(b) => if b then "true" else "false"
    case JNum(n) => if n < 0 then "-" + Text.NatToString(-n) else Text.NatToString(n)
    case JArr(_) => ""
    case JObj(_) => ""
  }

  /** Members reached by following `path` from `j`. */
  function GetPath(j: Json, path: seq<string>): Json
    decreases |path|
  {
    if path == [] then j else GetPath(Get(j, path[0]), path[1..])
  }

  /** `j[p0][p1]...[pn] = v`, creating objects along the way. */
  function SetPath(j: Json, path: seq<string>, v: Json): (r: Json)
    ensures path != [] ==> r.JObj?
    decreases |path|
  {
    if path == [] then v else Set(j, path[0], SetPath(Get(j, path[0]), path[1..], v))
  }

  /** `j[p0]...[pn].append(v)`. */
  function AppendAt(j: Json, path: seq<string>, v: Json): Json
  {
    SetPath(j, path, Append(GetPath(j, path), v))
  }

  lemma {:induction false} GetSetPath(j: Json, path: seq<string>, v: Json)
    ensures GetPath(SetPath(j, path, v), path) == v
    decreases |path|
  {
    if path != [] {
      GetSetPath(Get(j, path[0]), path[1..], v);
    }
  }

  /** Writing below one top-level member leaves every other top-level member as it was. */
  lemma SetPathOtherMember(j: Json, path: seq<string>, v: Json, other: string)
    requires path != [] && other != path[0]
    ensures Get(SetPath(j, path, v), other) == Get(j, other)
  {
  }

  lemma AppendAtItems(j: Json, path: seq<string>, v: Json)
    ensures Items(GetPath(AppendAt(j, path, v), path)) == Items(GetPath(j, path)) + [v]
  {
    GetSetPath(j, path, Append(GetPath(j, path), v));
  }

  /** Two member paths that part ways: neither is a prefix of the other. */
  predicate Diverge(p: seq<string>, q: seq<string>)
    decreases |p|
  {
    p != [] && q != [] && (p[0] != q[0] || Diverge(p[1..], q[1..]))
  }

  /** Writing at one path leaves every path that parts from it as it was. */
  lemma {:induction false} GetSetPathDiverge(j: Json, p: seq<string>, q: seq<string>, v: Json)
    requires Diverge(p, q)
    ensures GetPath(SetPath(j, q, v), p) == GetPath(j, p)
    decreases |p|
  {
    if p[0] == q[0] {
      GetSetPathDiverge(Get(j, p[0]), p[1..], q[1..], v);
    }
  }

  /** What `j[p0]...[pn] = v` does: `v` is found at the path, and every path that parts from it is kept. */
  lemma SetPathFrame(j: Json, p: seq<string>, v: Json)
    ensures GetPath(SetPath(j, p, v), p) == v
    ensures forall q :: Diverge(q, p) ==> GetPath(SetPath(j, p, v), q) == GetPath(j, q)
  {
    GetSetPath(j, p, v);
    forall q | Diverge(q, p) ensures GetPath(SetPath(j, p, v), q) == GetPath(j, q) {
      GetSetPathDiverge(j, q, p, v);
    }
  }

  /** What `append` below a path does: one element more at the end there, and every path that parts from it is kept. */
  lemma AppendAtFrame(j: Json, p: seq<string>, v: Json)
    ensures Items(GetPath(AppendAt(j, p, v), p)) == Items(GetPath(j, p)) + [v]
    ensures forall q :: Diverge(q, p) ==> GetPath(AppendAt(j, p, v), q) == GetPath(j, q)
  {
    AppendAtItems(j, p, v);
    SetPathFrame(j, p, Append(GetPath(j, p), v));
  }

  /** `append` below `p` keeps one path that parts from `p`. */
  lemma AppendAtElsewhere(j: Json, p: seq<string>, v: Json, q: seq<string>)
    requires Diverge(q, p)
    ensures GetPath(AppendAt(j, p, v), q) == GetPath(j, q)
  {
    GetSetPathDiverge(j, q, p, Append(GetPath(j, p), v));
  }

  /** A path that parts from `p` also parts from anything below `p`. */
  lemma {:induction false} DivergeBelow(q: seq<string>, p: seq<string>, s: seq<string>)
    requires Diverge(q, p)
    ensures Diverge(q, p + s)
    decreases |q|
  {
    assert (p + s)[0] == p[0];
    if q[0] == p[0] {
      assert (p + s)[1..] == p[1..] + s;
      DivergeBelow(q[1..], p[1..], s);
    }
  }

  /** A path that parts from `[a, b]` parts from `[a, b, c]`. */
  lemma DivergeBelowPair(q: seq<string>, a: string, b: string, c: string)
    requires Diverge(q, [a, b])
    ensures Diverge(q, [a, b, c])
  {
    DivergeBelow(q, [a, b], [c]);
    assert [a, b] + [c] == [a, b, c];
  }

  /** A one-member path reads that member. */
  lemma GetPathSingle(j: Json, k: string)
    ensures GetPath(j, [k]) == Get(j, k)
  {
    assert [k][1..] == [];
  }

  /** Builds an object from a list of members (later members win). */
  function Obj(members: seq<(string, Json)>): (r: Json)
    ensures r.JObj?
    ensures forall i :: 0 <= i < |members| ==> HasLabel(r, members[i].0)
    decreases |members|
  {
    if members == [] then JObj(map[])
    else Set(Obj(members[..|members| - 1]), members[|members| - 1].0, members[|members| - 1].1)
  }

  function Strings(xs: seq<string>): (r: seq<Json>)
    ensures |r| == |xs|
    ensures forall i :: 0 <= i < |xs| ==> r[i] == JStr(xs[i])
  {
    if xs == [] then [] else [JStr(xs[0])] + Strings(xs[1..])
  }
}
