/** The values `json.loads` produces and `jsonify` sends, with the Python
    operations the server applies to them. Numbers are integers only. An
    object keeps its members in insertion order, as a Python dict does. */
module Json {
  import opened Common

  datatype Json =
    | JNull
    | JBool(b: bool)
    | JInt(i: int)
    | JStr(s: string)
    | JArr(items: seq<Json>)
    | JObj(fields: seq<Field>)

  datatype Field = Field(key: string, value: Json)

  /** Python truthiness: None, False, 0, "", [] and {} are false. */
  predicate PyTruthy(j: Json): (b: bool)
    ensures j.JStr? ==> (b <==> Truthy(Some(j.s)))
    ensures j.JNull? ==> !b
  {
    match j
    case JNull => false
    case JBool(b) => b
    case JInt(i) => i != 0
    case JStr(s) => s != ""
    case JArr(items) => items != []
    case JObj(fields) => fields != []
  }

  function Keys(fields: seq<Field>): (ks: seq<string>)
    ensures |ks| == |fields| && forall i :: 0 <= i < |fields| ==> ks[i] == fields[i].key
  {
    if fields == [] then [] else [fields[0].key] + Keys(fields[1..])
  }

  /** The value stored under `key`, if any. */
  function Lookup(fields: seq<Field>, key: string): (r: Option<Json>)
    ensures r.None? <==> key !in Keys(fields)
  {
    if fields == [] then None
    else if fields[0].key == key then Some(fields[0].value)
    else Lookup(fields[1..], key)
  }

  /** `d[key] = value`: an existing member is overwritten where it stands,
      a new one goes last. */
  function Assign(fields: seq<Field>, key: string, value: Json): (r: seq<Field>)
    ensures |r| == |fields| || |r| == |fields| + 1
  {
    if fields == [] then [Field(key, value)]
    else if fields[0].key == key then [Field(key, value)] + fields[1..]
    else [fields[0]] + Assign(fields[1..], key, value)
  }

  /** Assigning keeps the key order: an existing key stays where it is, a
      new key is appended after all the others. */
  lemma {:induction false} AssignKeys(fields: seq<Field>, key: string, value: Json)
    ensures key in Keys(fields) ==> Keys(Assign(fields, key, value)) == Keys(fields)
    ensures key !in Keys(fields) ==> Assign(fields, key, value) == fields + [Field(key, value)]
    decreases |fields|
  {
    if fields != [] && fields[0].key != key {
      var rest := Assign(fields[1..], key, value);
      AssignKeys(fields[1..], key, value);
      assert Keys(fields) == [fields[0].key] + Keys(fields[1..]);
      assert Keys([fields[0]] + rest) == [fields[0].key] + Keys(rest) by {
        assert ([fields[0]] + rest)[1..] == rest;
      }
      if key !in Keys(fields) {
        assert fields == [fields[0]] + fields[1..];
      }
    } else if fields != [] {
      assert Keys([Field(key, value)] + fields[1..]) == [key] + Keys(fields[1..]) by {
        assert ([Field(key, value)] + fields[1..])[1..] == fields[1..];
      }
    }
  }

  /** After assigning, the key reads back the new value and every other key
      reads what it read before. */
  lemma {:induction false} AssignLookup(fields: seq<Field>, key: string, value: Json, k: string)
    ensures Lookup(Assign(fields, key, value), k) == (if k == key then Some(value) else Lookup(fields, k))
    decreases |fields|
  {
    var r := Assign(fields, key, value);
    if fields == [] {
    } else if fields[0].key == key {
      assert r[1..] == fields[1..];
    } else {
      var rest := Assign(fields[1..], key, value);
      assert r[1..] == rest;
      if k != fields[0].key {
        AssignLookup(fields[1..], key, value, k);
      }
    }
  }

  /** `d.get(key, default)` on a dict. */
  function GetOr(fields: seq<Field>, key: string, default: Json): (r: Json)
    ensures key in Keys(fields) ==> Some(r) == Lookup(fields, key)
    ensures key !in Keys(fields) ==> r == default
  {
    match Lookup(fields, key)
    case Some(v) => v
    case None => default
  }

  /** `needle` occurs in `s` starting at index `k`. */
  predicate OccursAt(needle: string, s: string, k: int) {
    0 <= k && k + |needle| <= |s| && s[k..k + |needle|] == needle
  }

  /** `needle in s` for two strings: a substring test. */
  predicate IsSubstring(needle: string, s: string) {
    needle <= s || (s != [] && IsSubstring(needle, s[1..]))
  }

  /** An occurrence in the tail is an occurrence one index later. */
  lemma OccursShift(needle: string, s: string, k: int)
    requires s != [] && OccursAt(needle, s[1..], k)
    ensures OccursAt(needle, s, k + 1)
  {
  }

  /** An occurrence past index 0 is an occurrence in the tail. */
  lemma OccursUnshift(needle: string, s: string, k: int)
    requires 0 < k && OccursAt(needle, s, k)
    ensures OccursAt(needle, s[1..], k - 1)
  {
  }

  /** The substring test holds exactly when the needle occurs at some index. */
  lemma {:induction false} IsSubstringOccurs(needle: string, s: string)
    ensures IsSubstring(needle, s) <==> exists k :: OccursAt(needle, s, k)
    decreases |s|
  {
    if needle <= s {
      assert OccursAt(needle, s, 0);
    } else if s == [] {
      assert forall k :: !OccursAt(needle, s, k);
    } else {
      IsSubstringOccurs(needle, s[1..]);
      if IsSubstring(needle, s[1..]) {
        var k :| OccursAt(needle, s[1..], k);
        OccursShift(needle, s, k);
      }
      if exists k :: OccursAt(needle, s, k) {
        var k :| OccursAt(needle, s, k);
        assert k != 0;
        OccursUnshift(needle, s, k);
      }
    }
  }

  /** `text in container` on a decoded value: element of a list, key of a
      dict, substring of a string; None for the types where Python raises
      TypeError. */
  function Contains(container: Json, text: string): (r: Option<bool>)
    ensures r.None? <==> !(container.JArr? || container.JObj? || container.JStr?)
    ensures container.JArr? ==> r == Some(JStr(text) in container.items)
    ensures container.JObj? ==> r == Some(text in Keys(container.fields))
    ensures container.JStr? ==> r == Some(IsSubstring(text, container.s))
  {
    match container
    case JArr(items) => Some(JStr(text) in items)
    case JObj(fields) => Some(text in Keys(fields))
    case JStr(s) => Some(IsSubstring(text, s))
    case _ => None
  }

  function StrOrNull(s: Option<string>): (j: Json)
    ensures s.None? ==> j == JNull
    ensures s.Some? ==> j == JStr(s.value)
    ensures PyTruthy(j) <==> Truthy(s)
  {
    match s
    case None => JNull
    case Some(t) => JStr(t)
  }
}
