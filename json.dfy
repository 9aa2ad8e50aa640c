/**
  JSON-shaped values as the Python code handles them (`dict`, `list`, `str`,
  `int`, `bool`, `None`), and the handful of Python operations the adapters
  apply to them. Each operation returns `Err(text)` exactly where Python would
  raise, so an adapter's "every exception becomes the error record" rule can be
  modelled on malformed shapes too.
*/
module JsonValues {
  import opened Wrappers

  /** A Python value decoded from JSON. Objects keep their key order. */
  datatype Json =
    | JNull
    | JBool(b: bool)
    | JNum(n: int)
    | JStr(s: string)
    | JArr(items: seq<Json>)
    | JObj(fields: seq<(string, Json)>)

  /** The outcome of a Python expression: a value, or the text of the exception it raises. */
  type Py<T> = Result<T, string>

  /** `{}` */
  const EmptyObj: Json := JObj([])

  function Lookup(fields: seq<(string, Json)>, key: string): (r: Option<Json>)
    ensures r.None? <==> key !in KeysOf(fields)
  {
    if |fields| == 0 then None
    else if fields[0].0 == key then Some(fields[0].1)
    else Lookup(fields[1..], key)
  }

  /** What a lookup finds is an entry of the object under that key. */
  lemma {:induction false} LookupFound(fields: seq<(string, Json)>, key: string)
    requires Lookup(fields, key).Some?
    ensures (key, Lookup(fields, key).value) in fields
  {
    if fields[0].0 != key {
      LookupFound(fields[1..], key);
      assert (key, Lookup(fields, key).value) in fields[1..];
    }
  }

  /** The value at the first occurrence of a key, when no earlier entry carries it. */
  lemma {:induction false} LookupAt(fields: seq<(string, Json)>, i: nat)
    requires i < |fields|
    requires forall j :: 0 <= j < i ==> fields[j].0 != fields[i].0
    ensures Lookup(fields, fields[i].0) == Some(fields[i].1)
  {
    if i > 0 {
      LookupAt(fields[1..], i - 1);
    }
  }

  /** A key that no earlier entry carries is found at its own entry, whatever follows it. */
  lemma {:induction false} LookupAfter(pre: seq<(string, Json)>, key: string, v: Json, post: seq<(string, Json)>)
    requires key !in KeysOf(pre)
    ensures GetItem(JObj(pre + [(key, v)] + post), key) == Ok(v)
  {
    var all := pre + [(key, v)] + post;
    if |pre| == 0 {
      assert all[0] == (key, v);
    } else {
      assert KeysOf(pre)[0] == pre[0].0 != key;
      assert key !in KeysOf(pre[1..]) by {
        assert forall i :: 0 <= i < |pre| - 1 ==> KeysOf(pre[1..])[i] == KeysOf(pre)[i + 1];
      }
      assert all[1..] == pre[1..] + [(key, v)] + post;
      LookupAfter(pre[1..], key, v, post);
      assert Lookup(all, key) == Lookup(all[1..], key);
    }
  }

  function KeysOf(fields: seq<(string, Json)>): (ks: seq<string>)
    ensures |ks| == |fields|
  {
    if |fields| == 0 then [] else [fields[0].0] + KeysOf(fields[1..])
  }

  /** The keys of an object, in entry order. */
  lemma {:induction false} KeysOfSpec(fields: seq<(string, Json)>)
    ensures forall i :: 0 <= i < |fields| ==> KeysOf(fields)[i] == fields[i].0
  {
    if |fields| > 0 {
      KeysOfSpec(fields[1..]);
      assert forall i :: 1 <= i < |fields| ==> KeysOf(fields)[i] == KeysOf(fields[1..])[i - 1];
    }
  }

  /** Python truthiness: `None`, `False`, `0`, `""`, `[]` and `{}` are false. */
  predicate Truthy(v: Json)
  {
    match v
    case JNull => false
    case JBool(b) => b
    case JNum(n) => n != 0
    case JStr(s) => s != ""
    case JArr(items) => items != []
    case JObj(fields) => fields != []
  }

  predicate IsSuffix(p: string, s: string)
  {
    |p| <= |s| && s[|s| - |p|..] == p
  }

  predicate IsPrefix(p: string, s: string)
  {
    |p| <= |s| && s[..|p|] == p
  }

  /** Python's `p in s` on two strings. */
  predicate IsSubstring(p: string, s: string)
    decreases |s|
  {
    IsPrefix(p, s) || (|s| > 0 && IsSubstring(p, s[1..]))
  }

  /** `key in v` for a string key: key membership on a dict, element membership on a list, substring on a str. */
  function Contains(v: Json, key: string): (r: Py<bool>)
    ensures r.Ok? <==> (v.JObj? || v.JArr? || v.JStr?)
    ensures v.JObj? ==> r == Ok(key in KeysOf(v.fields))
  {
    match v
    case JObj(fields) => Ok(key in KeysOf(fields))
    case JArr(items) => Ok(JStr(key) in items)
    case JStr(s) => Ok(IsSubstring(key, s))
    case _ => Err("argument is not iterable")
  }

  /** `v[key]` for a string key: only a dict holding the key answers. */
  function GetItem(v: Json, key: string): (r: Py<Json>)
    ensures r.Ok? <==> v.JObj? && key in KeysOf(v.fields)
    ensures r.Ok? ==> Lookup(v.fields, key) == Some(r.value)
  {
    match v
    case JObj(fields) =>
      (match Lookup(fields, key)
       case Some(x) => Ok(x)
       case None => Err("'" + key + "'"))
    case JArr(_) => Err("list indices must be integers or slices, not str")
    case JStr(_) => Err("string indices must be integers")
    case _ => Err("object is not subscriptable")
  }

  /** `v.get(key, default)`: only a dict has `get`. */
  function Get(v: Json, key: string, default: Json): (r: Py<Json>)
    ensures r.Ok? <==> v.JObj?
    ensures v.JObj? && key !in KeysOf(v.fields) ==> r == Ok(default)
    ensures v.JObj? && key in KeysOf(v.fields) ==> r == Ok(Lookup(v.fields, key).value)
  {
    match v
    case JObj(fields) =>
      (match Lookup(fields, key)
       case Some(x) => Ok(x)
       case None => Ok(default))
    case _ => Err("object has no attribute 'get'")
  }

  /** `len(v)` */
  function Len(v: Json): (r: Py<nat>)
    ensures r.Ok? <==> (v.JObj? || v.JArr? || v.JStr?)
  {
    match v
    case JObj(fields) => Ok(|fields|)
    case JArr(items) => Ok(|items|)
    case JStr(s) => Ok(|s|)
    case _ => Err("object has no len()")
  }

  /** `v[0]` */
  function First(v: Json): (r: Py<Json>)
    ensures v.JArr? && v.items != [] ==> r == Ok(v.items[0])
    ensures r.Ok? ==> (v.JArr? && v.items != []) || (v.JStr? && v.s != [])
  {
    match v
    case JArr(items) => if items == [] then Err("list index out of range") else Ok(items[0])
    case JStr(s) => if s == [] then Err("string index out of range") else Ok(JStr([s[0]]))
    case JObj(_) => Err("0")
    case _ => Err("object is not subscriptable")
  }

  /** The elements `for x in v` visits: list items, dict keys, or the characters of a str. */
  function Iter(v: Json): (r: Py<seq<Json>>)
    ensures r.Ok? <==> (v.JObj? || v.JArr? || v.JStr?)
    ensures v.JArr? ==> r == Ok(v.items)
  {
    match v
    case JArr(items) => Ok(items)
    case JObj(fields) => Ok(seq(|fields|, i requires 0 <= i < |fields| => JStr(fields[i].0)))
    case JStr(s) => Ok(seq(|s|, i requires 0 <= i < |s| => JStr([s[i]])))
    case _ => Err("object is not iterable")
  }

  /** Decimal digits of a natural number, as Python's `str` writes it. */
  function NatToString(n: nat): (r: string)
    ensures |r| >= 1
    decreases n
  {
    if n < 10 then [Digit(n)] else NatToString(n / 10) + [Digit(n % 10)]
  }

  function Digit(d: nat): char
    requires d < 10
  {
    "0123456789"[d]
  }

  function IntToString(n: int): (r: string)
    ensures |r| >= 1
  {
    if n < 0 then "-" + NatToString(-n) else NatToString(n)
  }

  /** Python's type name for a value, as error messages print it. */
  function TypeName(v: Json): string
  {
    match v
    case JNull => "NoneType"
    case JBool(_) => "bool"
    case JNum(_) => "int"
    case JStr(_) => "str"
    case JArr(_) => "list"
    case JObj(_) => "dict"
  }

  /**
    `str(v)` as an f-string renders it. Strings, numbers, booleans and `None`
    are exact; a list or dict is rendered by its type only.
  */
  function Str(v: Json): string
  {
    match v
    case JNull => "None"
    case JBool(b) => if b then "True" else "False"
    case JNum(n) => IntToString(n)
    case JStr(s) => s
    case JArr(_) => "[...]"
    case JObj(_) => "{...}"
  }

  /**
    `s[:k]`: the first `k` elements, or all of them when `k` is larger; a
    negative `k` counts from the end, dropping the last `-k`.
  */
  function Take<T>(s: seq<T>, k: int): (r: seq<T>)
    ensures |r| <= |s| && r == s[..|r|]
    ensures 0 <= k <= |s| ==> |r| == k
    ensures k > |s| ==> r == s
    ensures k < 0 ==> |r| == if |s| + k < 0 then 0 else |s| + k
  {
    if k >= 0 then (if k <= |s| then s[..k] else s)
    else if |s| + k >= 0 then s[..|s| + k]
    else []
  }

  /** `s.rstrip('/')`: drops every trailing slash and nothing else. */
  function RStripSlash(s: string): (r: string)
    ensures IsPrefix(r, s)
    ensures r == [] || r[|r| - 1] != '/'
    ensures forall i :: |r| <= i < |s| ==> s[i] == '/'
  {
    if |s| > 0 && s[|s| - 1] == '/' then RStripSlash(s[..|s| - 1]) else s
  }

  /**
    The characters `str.strip()` removes: Python's `str.isspace` set, that is
    the ASCII whitespace, the separators U+001C to U+001F, NEL, NO-BREAK
    SPACE and the Unicode space and line/paragraph separators.
  */
  predicate IsSpace(c: char)
  {
    ('\U{0009}' <= c <= '\U{000D}') || ('\U{001C}' <= c <= '\U{0020}') ||
    c == '\U{0085}' || c == '\U{00A0}' || c == '\U{1680}' ||
    ('\U{2000}' <= c <= '\U{200A}') || c == '\U{2028}' || c == '\U{2029}' ||
    c == '\U{202F}' || c == '\U{205F}' || c == '\U{3000}'
  }

  /** `s.lstrip()` */
  function LStrip(s: string): string
  {
    if |s| > 0 && IsSpace(s[0]) then LStrip(s[1..]) else s
  }

  /** `s.lstrip()` is a suffix of `s` after whitespace, and does not start with whitespace. */
  lemma {:induction false} LStripSpec(s: string)
    ensures var r := LStrip(s);
            IsSuffix(r, s) && (r == [] || !IsSpace(r[0])) &&
            forall i :: 0 <= i < |s| - |r| ==> IsSpace(s[i])
  {
    if |s| > 0 && IsSpace(s[0]) {
      LStripSpec(s[1..]);
      var r := LStrip(s);
      assert s[1..][|s| - 1 - |r|..] == s[|s| - |r|..];
      forall i | 1 <= i < |s| - |r|
        ensures IsSpace(s[i])
      {
        assert s[i] == s[1..][i - 1];
      }
    }
  }

  /** `s.rstrip()` */
  function RStrip(s: string): string
  {
    if |s| > 0 && IsSpace(s[|s| - 1]) then RStrip(s[..|s| - 1]) else s
  }

  /** `s.rstrip()` is a prefix of `s` before whitespace, and does not end with whitespace. */
  lemma {:induction false} RStripSpec(s: string)
    ensures var r := RStrip(s);
            IsPrefix(r, s) && (r == [] || !IsSpace(r[|r| - 1])) &&
            forall i :: |r| <= i < |s| ==> IsSpace(s[i])
  {
    if |s| > 0 && IsSpace(s[|s| - 1]) {
      RStripSpec(s[..|s| - 1]);
      var r := RStrip(s);
      assert s[..|s| - 1][..|r|] == s[..|r|];
      forall i | |r| <= i < |s| - 1
        ensures IsSpace(s[i])
      {
        assert s[i] == s[..|s| - 1][i];
      }
    }
  }

  /** `s.strip()`: whitespace off both ends. */
  function Strip(s: string): string
  {
    RStrip(LStrip(s))
  }

  /**
    `r` is the middle of `s` from position `a`: only whitespace lies before
    and after it, and it neither starts nor ends with whitespace.
  */
  predicate Trimmed(s: string, a: nat, r: string)
  {
    a + |r| <= |s| && r == s[a..a + |r|] &&
    (forall i :: 0 <= i < a ==> IsSpace(s[i])) &&
    (forall i :: a + |r| <= i < |s| ==> IsSpace(s[i])) &&
    (r == [] || (!IsSpace(r[0]) && !IsSpace(r[|r| - 1])))
  }

  /** `s.strip()` is the middle of `s` after its leading whitespace. */
  lemma StripSpec(s: string)
    ensures |LStrip(s)| <= |s| && Trimmed(s, |s| - |LStrip(s)|, Strip(s))
  {
    LStripSpec(s);
    RStripSpec(LStrip(s));
    StripParts(s, LStrip(s), Strip(s));
  }

  /**
    A suffix `l` of `s` after whitespace, not starting with whitespace, and a
    prefix `r` of `l` before whitespace, not ending with whitespace: `r` is
    the middle of `s`.
  */
  lemma StripParts(s: string, l: string, r: string)
    requires IsSuffix(l, s) && (l == [] || !IsSpace(l[0])) && forall i :: 0 <= i < |s| - |l| ==> IsSpace(s[i])
    requires IsPrefix(r, l) && (r == [] || !IsSpace(r[|r| - 1])) && forall i :: |r| <= i < |l| ==> IsSpace(l[i])
    ensures Trimmed(s, |s| - |l|, r)
  {
    var a := |s| - |l|;
    forall i | 0 <= i < |r|
      ensures r[i] == s[a + i]
    {
      assert r[i] == l[i];
    }
    forall i | a + |r| <= i < |s|
      ensures IsSpace(s[i])
    {
      assert s[i] == l[i - a];
    }
    if r != [] {
      assert r[0] == l[0];
    }
  }

  /** A no-break space and an ideographic space are stripped like ASCII blanks; a zero-width space is not whitespace. */
  lemma StripUnicodeSpaces()
    ensures Strip("\U{00A0} ok\U{3000}") == "ok"
    ensures Strip("\U{200B}ok") == "\U{200B}ok"
  {
    assert "\U{00A0} ok\U{3000}"[1..] == " ok\U{3000}";
    assert " ok\U{3000}"[1..] == "ok\U{3000}";
    assert "ok\U{3000}"[..2] == "ok";
  }

  /** Stripping a string that already has no whitespace at its ends changes nothing. */
  lemma StripKeeps(s: string)
    requires s == [] || (!IsSpace(s[0]) && !IsSpace(s[|s| - 1]))
    ensures Strip(s) == s
  {
  }
}
