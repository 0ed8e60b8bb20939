/**
 * The parts of Python's built-in behaviour that the scripts rely on: parsed JSON
 * values and their truthiness, str() and f-string formatting, int() on text,
 * str.split / str.join / str.strip, substring tests and slicing, and the
 * pathlib / os.path helpers that take a file name apart.
 */
module Python {
  import opened Outcome

  /** A parsed JSON value.  Objects keep their keys in insertion order, as Python dicts do. */
  datatype Value =
    | Null
    | Bool(b: bool)
    | Int(i: int)
    | Str(s: string)
    | List(items: seq<Value>)
    | Obj(fields: seq<(string, Value)>)

  /** A Python dict with string keys, in insertion order. */
  type Dict = seq<(string, Value)>

  /** Python's truth value: None, False, 0, "", [] and {} are false. */
  predicate Truthy(v: Value) {
    match v
    case Null => false
    case Bool(b) => b
    case Int(i) => i != 0
    case Str(s) => s != ""
    case List(items) => items != []
    case Obj(fields) => fields != []
  }

  // ---------------------------------------------------------------------------
  // Dicts

  /** `d.get(key)`: the value stored under key, if any. */
  function Get(d: Dict, key: string): Option<Value>
  {
    if d == [] then None
    else if d[0].0 == key then Some(d[0].1)
    else Get(d[1..], key)
  }

  predicate HasKey(d: Dict, key: string) {
    Get(d, key).Some?
  }

  /** A key is in the dict iff some entry carries it. */
  lemma {:induction false} HasKeyMeans(d: Dict, key: string)
    ensures HasKey(d, key) <==> exists i :: 0 <= i < |d| && d[i].0 == key
  {
    if d != [] && d[0].0 != key {
      HasKeyMeans(d[1..], key);
      if exists i :: 0 <= i < |d| && d[i].0 == key {
        var i :| 0 <= i < |d| && d[i].0 == key;
        assert d[1..][i - 1] == d[i];
      }
    }
  }

  /** `d[key]`: KeyError when the key is absent. */
  function Lookup(d: Dict, key: string): (r: Result<Value>)
    ensures r.Err? <==> !HasKey(d, key)
    ensures r.Err? ==> r.error == KeyError(key)
  {
    match Get(d, key)
    case Some(v) => Ok(v)
    case None => Err(KeyError(key))
  }

  /** `d.get(key, default)`. */
  function GetOr(d: Dict, key: string, default: Value): Value {
    match Get(d, key)
    case Some(v) => v
    case None => default
  }

  /** `d[key] = v`: an existing key keeps its position, a new one goes last. */
  function Put(d: Dict, key: string, v: Value): (r: Dict)
    ensures Get(r, key) == Some(v)
    ensures forall k :: k != key ==> Get(r, k) == Get(d, k)
    ensures HasKey(d, key) ==> |r| == |d|
    ensures !HasKey(d, key) ==> r == d + [(key, v)]
  {
    if d == [] then [(key, v)]
    else if d[0].0 == key then [(key, v)] + d[1..]
    else [d[0]] + Put(d[1..], key, v)
  }

  /** Storing the same value under the same key twice is storing it once. */
  lemma {:induction false} PutTwice(d: Dict, key: string, v: Value)
    ensures Put(Put(d, key, v), key, v) == Put(d, key, v)
  {
    if d != [] && d[0].0 != key {
      PutTwice(d[1..], key, v);
    }
  }

  /** Storing two new keys appends them, in order. */
  lemma PutTwoNew(d: Dict, k1: string, v1: Value, k2: string, v2: Value)
    requires !HasKey(d, k1) && !HasKey(d, k2) && k1 != k2
    ensures Put(Put(d, k1, v1), k2, v2) == d + [(k1, v1), (k2, v2)]
  {
    assert !HasKey(Put(d, k1, v1), k2);
  }

  /** A dict object that code holding a reference to it updates in place. */
  class PyDict {
    var entries: Dict

    constructor (d: Dict)
      ensures entries == d
    {
      entries := d;
    }

    /** `d.update({key: v})` and `d[key] = v`. */
    method Update(key: string, v: Value)
      modifies this
      ensures entries == Put(old(entries), key, v)
    {
      entries := Put(entries, key, v);
    }
  }

  /** `{**d, **e}` or `d.update(e)`: the entries of e put into d one after another. */
  function Merge(d: Dict, e: Dict): Dict
    decreases |e|
  {
    if e == [] then d else Merge(Put(d, e[0].0, e[0].1), e[1..])
  }

  /** No key occurs twice, as in any dict Python builds. */
  predicate DistinctKeys(d: Dict) {
    forall i, j :: 0 <= i < j < |d| ==> d[i].0 != d[j].0
  }

  lemma DistinctTail(d: Dict)
    requires d != [] && DistinctKeys(d)
    ensures DistinctKeys(d[1..])
  {
    forall a, b | 0 <= a < b < |d[1..]| ensures d[1..][a].0 != d[1..][b].0 {
      assert d[1..][a] == d[a + 1] && d[1..][b] == d[b + 1];
    }
  }

  /** After a merge a key of e has e's value and every other key keeps d's. */
  lemma {:induction false} MergeGet(d: Dict, e: Dict, k: string)
    requires DistinctKeys(e)
    ensures Get(Merge(d, e), k) == if HasKey(e, k) then Get(e, k) else Get(d, k)
    decreases |e|
  {
    if e != [] {
      DistinctTail(e);
      HasKeyMeans(e[1..], e[0].0);
      MergeGet(Put(d, e[0].0, e[0].1), e[1..], k);
    }
  }

  /** `v[key]` on a parsed JSON value: a missing key of an object raises KeyError,
      and subscripting anything that is not an object with a string raises TypeError. */
  function Subscript(v: Value, key: string): (r: Result<Value>)
    ensures v.Obj? ==> r == Lookup(v.fields, key)
    ensures !v.Obj? ==> r.Err? && r.error.TypeError?
  {
    if v.Obj? then Lookup(v.fields, key) else Err(TypeError("object is not subscriptable by a string"))
  }

  /** `v.get(key)` on a parsed JSON value, None (Null) for anything missing. */
  function At(v: Value, key: string): Value {
    if v.Obj? then GetOr(v.fields, key, Null) else Null
  }

  /** `v.get(key, default)` on a parsed JSON value. */
  function AtOr(v: Value, key: string, default: Value): Value {
    if v.Obj? then GetOr(v.fields, key, default) else default
  }

  /** `v.get(key)` called as a method: None (Null) for a missing key; a value that
      is not a dict has no `get` (AttributeError). */
  function GetMethod(v: Value, key: string): Result<Value> {
    if v.Obj? then Ok(GetOr(v.fields, key, Null)) else Err(AttributeError("get"))
  }

  /** What a `for` loop over a parsed JSON value visits: the items of a list, the
      keys of an object, the characters of a text; anything else raises TypeError. */
  function Iterate(v: Value): (r: Result<seq<Value>>)
    ensures v.List? ==> r == Ok(v.items)
    ensures r.Err? <==> !(v.List? || v.Obj? || v.Str?)
  {
    match v
    case List(items) => Ok(items)
    case Obj(fields) => Ok(seq(|fields|, i requires 0 <= i < |fields| => Str(fields[i].0)))
    case Str(s) => Ok(seq(|s|, i requires 0 <= i < |s| => Str([s[i]])))
    case _ => Err(TypeError("object is not iterable"))
  }

  /** `v[i]` on a parsed JSON value with an integer index: lists and text count
      from the end for a negative index and raise IndexError outside their length;
      an object has no integer keys (KeyError); anything else raises TypeError. */
  function Item(v: Value, i: int): (r: Result<Value>)
    ensures v.List? && 0 <= i < |v.items| ==> r == Ok(v.items[i])
    ensures v.List? && -|v.items| <= i < 0 ==> r == Ok(v.items[|v.items| + i])
    ensures v.List? ==> (r.Err? <==> !(-|v.items| <= i < |v.items|))
    ensures v.List? && r.Err? ==> r.error == IndexError
  {
    match v
    case List(items) =>
      if 0 <= i < |items| then Ok(items[i])
      else if -|items| <= i < 0 then Ok(items[|items| + i])
      else Err(IndexError)
    case Str(s) =>
      if 0 <= i < |s| then Ok(Str([s[i]]))
      else if -|s| <= i < 0 then Ok(Str([s[|s| + i]]))
      else Err(IndexError)
    case Obj(_) => Err(KeyError(IntToString(i)))
    case _ => Err(TypeError("object is not subscriptable"))
  }

  /** `[r[key] for r in records]`: every record is subscripted, in order. */
  function EachField(records: seq<Value>, key: string): (r: Result<seq<Value>>)
    ensures r.Ok? ==> |r.value| == |records|
  {
    if records == [] then Ok([])
    else
      var v :- Subscript(records[0], key);
      var rest :- EachField(records[1..], key);
      Ok([v] + rest)
  }

  /** The comprehension succeeds iff every record is a dict with the key, and then
      it holds each record's value, in order. */
  lemma {:induction false} EachFieldMeans(records: seq<Value>, key: string)
    ensures EachField(records, key).Ok? <==>
              forall i :: 0 <= i < |records| ==> records[i].Obj? && HasKey(records[i].fields, key)
    ensures EachField(records, key).Ok? ==>
              forall i :: 0 <= i < |records| ==> EachField(records, key).value[i] == At(records[i], key)
  {
    if records != [] {
      var rest := records[1..];
      EachFieldMeans(rest, key);
      assert forall i :: 0 <= i < |rest| ==> rest[i] == records[i + 1];
      if EachField(records, key).Ok? {
        assert Lookup(records[0].fields, key).value == At(records[0], key);
      }
    }
  }

  /** `[r[key] for r in records][0]`: IndexError when there is no record. */
  function FirstField(records: seq<Value>, key: string): (r: Result<Value>) {
    var vs :- EachField(records, key);
    if vs == [] then Err(IndexError) else Ok(vs[0])
  }

  /** A value read with `.get` that is not None was read from a dict holding the key. */
  lemma PresentAt(v: Value, key: string)
    requires At(v, key) != Null
    ensures v.Obj? && HasKey(v.fields, key) && Subscript(v, key) == Ok(At(v, key))
  {
    HasKeyMeans(v.fields, key);
  }

  /** A subscript that succeeds reads what `.get` reads. */
  lemma SubscriptOk(v: Value, key: string)
    requires Subscript(v, key).Ok?
    ensures v.Obj? && HasKey(v.fields, key) && Subscript(v, key).value == At(v, key)
  {
  }

  /** `d.keys()`, in insertion order. */
  function Keys(d: Dict): (r: seq<string>)
    ensures |r| == |d|
    ensures forall i :: 0 <= i < |d| ==> r[i] == d[i].0
  {
    seq(|d|, i requires 0 <= i < |d| => d[i].0)
  }

  /** `d.values()`, in insertion order. */
  function Values(d: Dict): (r: seq<Value>)
    ensures |r| == |d|
    ensures forall i :: 0 <= i < |d| ==> r[i] == d[i].1
  {
    seq(|d|, i requires 0 <= i < |d| => d[i].1)
  }

  /** A dict display `{k1: v1, k2: v2, ...}`: a repeated key takes the later value
      and keeps the position of its first occurrence. */
  function DictOf(entries: seq<(string, Value)>): Dict {
    if entries == [] then []
    else Put(DictOf(entries[..|entries| - 1]), entries[|entries| - 1].0, entries[|entries| - 1].1)
  }

  /** The value of the last entry with the given key. */
  function LastValue(entries: seq<(string, Value)>, key: string): Option<Value> {
    if entries == [] then None
    else if entries[|entries| - 1].0 == key then Some(entries[|entries| - 1].1)
    else LastValue(entries[..|entries| - 1], key)
  }

  /** In a dict display the last entry for a key decides its value. */
  lemma {:induction false} DictOfGet(entries: seq<(string, Value)>, key: string)
    ensures Get(DictOf(entries), key) == LastValue(entries, key)
  {
    if entries != [] {
      DictOfGet(entries[..|entries| - 1], key);
    }
  }

  /** The value of the entry at i, when no later entry has its key. */
  lemma {:induction false} LastValueAt(entries: seq<(string, Value)>, key: string, i: nat)
    requires i < |entries| && entries[i].0 == key
    requires forall j :: i < j < |entries| ==> entries[j].0 != key
    ensures LastValue(entries, key) == Some(entries[i].1)
  {
    if i < |entries| - 1 {
      LastValueAt(entries[..|entries| - 1], key, i);
    }
  }

  /** A dict display without repeated keys is the dict of its entries, in order. */
  lemma {:induction false} DictOfDistinct(entries: seq<(string, Value)>)
    requires DistinctKeys(entries)
    ensures DictOf(entries) == entries
  {
    if entries != [] {
      var front := entries[..|entries| - 1];
      assert DistinctKeys(front);
      DictOfDistinct(front);
      HasKeyMeans(front, entries[|entries| - 1].0);
      assert front + [entries[|entries| - 1]] == entries;
    }
  }

  /** Replacing the value of an entry keeps the keys distinct. */
  lemma DistinctUpdate(d: Dict, i: nat, v: Value)
    requires i < |d| && DistinctKeys(d)
    ensures DistinctKeys(d[i := (d[i].0, v)])
  {
    var e := d[i := (d[i].0, v)];
    assert forall j :: 0 <= j < |d| ==> e[j].0 == d[j].0;
  }

  /** Storing under a key the dict already holds replaces that entry in place. */
  lemma {:induction false} PutExisting(d: Dict, i: nat, v: Value)
    requires i < |d| && DistinctKeys(d)
    ensures Put(d, d[i].0, v) == d[i := (d[i].0, v)]
  {
    if i > 0 {
      DistinctTail(d);
      var key := d[i].0;
      assert d[1..][i - 1] == d[i];
      assert d[0].0 != key;
      assert Put(d, key, v) == [d[0]] + Put(d[1..], key, v);
      PutExisting(d[1..], i - 1, v);
      assert [d[0]] + d[1..][i - 1 := (key, v)] == d[i := (key, v)];
    }
  }

  /** In a dict without repeated keys, the entry at i is what its key looks up. */
  lemma {:induction false} GetAt(d: Dict, i: nat)
    requires i < |d| && DistinctKeys(d)
    ensures Get(d, d[i].0) == Some(d[i].1)
  {
    if i > 0 {
      DistinctTail(d);
      assert d[1..][i - 1] == d[i];
      GetAt(d[1..], i - 1);
    }
  }

  /** The first entry carrying a key is what the key looks up. */
  lemma {:induction false} GetFirst(d: Dict, i: nat)
    requires i < |d| && forall j :: 0 <= j < i ==> d[j].0 != d[i].0
    ensures Get(d, d[i].0) == Some(d[i].1)
  {
    if i > 0 {
      assert d[1..][i - 1] == d[i];
      assert forall j :: 0 <= j < i - 1 ==> d[1..][j] == d[j + 1];
      GetFirst(d[1..], i - 1);
    }
  }

  /** Storing under a key keeps the keys distinct. */
  lemma PutDistinct(d: Dict, key: string, v: Value)
    requires DistinctKeys(d)
    ensures DistinctKeys(Put(d, key, v))
  {
    HasKeyMeans(d, key);
    if HasKey(d, key) {
      var i :| 0 <= i < |d| && d[i].0 == key;
      PutExisting(d, i, v);
      DistinctUpdate(d, i, v);
    }
  }

  /** No dict display repeats a key. */
  lemma {:induction false} DictOfDistinctKeys(entries: seq<(string, Value)>)
    ensures DistinctKeys(DictOf(entries))
  {
    if entries != [] {
      var n := |entries| - 1;
      DictOfDistinctKeys(entries[..n]);
      PutDistinct(DictOf(entries[..n]), entries[n].0, entries[n].1);
    }
  }

  /** Every key of a dict display comes from one of its entries. */
  lemma {:induction false} DictOfKeyFrom(entries: seq<(string, Value)>, key: string)
    requires HasKey(DictOf(entries), key)
    ensures exists i :: 0 <= i < |entries| && entries[i].0 == key
  {
    var n := |entries| - 1;
    if entries[n].0 != key {
      DictOfKeyFrom(entries[..n], key);
      var i :| 0 <= i < n && entries[..n][i].0 == key;
      assert entries[i].0 == key;
    }
  }

  /** The keys differ from each other. */
  predicate Distinct(keys: seq<string>) {
    forall i, j :: 0 <= i < j < |keys| ==> keys[i] != keys[j]
  }

  /** A dict display with distinct keys: the keys in the order written, each with
      its value. */
  function Display(keys: seq<string>, values: seq<Value>): (d: Dict)
    requires |keys| == |values|
    ensures |d| == |keys| && forall i :: 0 <= i < |keys| ==> d[i] == (keys[i], values[i])
  {
    seq(|keys|, i requires 0 <= i < |keys| => (keys[i], values[i]))
  }

  /** Each key of a display looks up the value written with it. */
  lemma DisplayGet(keys: seq<string>, values: seq<Value>, i: nat)
    requires |keys| == |values| && Distinct(keys) && i < |keys|
    ensures Get(Display(keys, values), keys[i]) == Some(values[i])
  {
    GetAt(Display(keys, values), i);
  }

  /** A key the display does not list is missing from it. */
  lemma DisplayMissing(keys: seq<string>, values: seq<Value>, k: string)
    requires |keys| == |values| && k !in keys
    ensures Get(Display(keys, values), k) == None
  {
    HasKeyMeans(Display(keys, values), k);
  }

  /** `d[key]` with a JSON value as the key: text is looked up, a list or a dict is
      unhashable, and any other value is missing from a dict with text keys. */
  function DictIndex(d: Dict, key: Value): (r: Result<Value>)
    ensures key.Str? ==> r == Lookup(d, key.s)
  {
    match key
    case Str(k) => Lookup(d, k)
    case List(_) => Err(TypeError("unhashable type: 'list'"))
    case Obj(_) => Err(TypeError("unhashable type: 'dict'"))
    case _ => Err(KeyError(Show(key)))
  }

  /** `d.pop(key)`: the removed value and the rest of the dict, KeyError when absent. */
  function Pop(d: Dict, key: string): (r: Result<(Value, Dict)>)
    ensures r.Err? <==> !HasKey(d, key)
    ensures r.Ok? ==> Some(r.value.0) == Get(d, key) && !HasKey(r.value.1, key)
    ensures r.Ok? ==> forall k :: k != key ==> Get(r.value.1, k) == Get(d, k)
  {
    if d == [] then Err(KeyError(key))
    else if d[0].0 == key then
      var rest := Remove(d[1..], key);
      Ok((d[0].1, rest))
    else
      match Pop(d[1..], key)
      case Err(e) => Err(e)
      case Ok((v, rest)) => Ok((v, [d[0]] + rest))
  }

  function Remove(d: Dict, key: string): (r: Dict)
    ensures !HasKey(r, key)
    ensures forall k :: k != key ==> Get(r, k) == Get(d, k)
  {
    if d == [] then []
    else if d[0].0 == key then Remove(d[1..], key)
    else [d[0]] + Remove(d[1..], key)
  }

  // ---------------------------------------------------------------------------
  // Numbers as text

  predicate IsDigit(c: char) { '0' <= c <= '9' }

  predicate AllDigits(s: string) { forall i :: 0 <= i < |s| ==> IsDigit(s[i]) }

  function DigitChar(d: nat): (c: char)
    requires d < 10
    ensures IsDigit(c)
  {
    ['0', '1', '2', '3', '4', '5', '6', '7', '8', '9'][d]
  }

  function NatToString(n: nat): (s: string)
    ensures s != [] && AllDigits(s)
    ensures |s| > 1 ==> s[0] != '0'
  {
    if n < 10 then [DigitChar(n)] else NatToString(n / 10) + [DigitChar(n % 10)]
  }

  /** str(i) for an int. */
  function IntToString(i: int): (s: string)
    ensures s != []
  {
    if i < 0 then "-" + NatToString(-i) else NatToString(i)
  }

  /** The number a string of decimal digits denotes. */
  function DigitsValue(s: string): nat
    requires AllDigits(s)
  {
    if s == [] then 0 else DigitsValue(s[..|s| - 1]) * 10 + (s[|s| - 1] as int - '0' as int)
  }

  lemma {:induction false} DigitsValueOfNatToString(n: nat)
    ensures DigitsValue(NatToString(n)) == n
  {
    if n >= 10 {
      var s := NatToString(n / 10) + [DigitChar(n % 10)];
      assert s[..|s| - 1] == NatToString(n / 10);
      DigitsValueOfNatToString(n / 10);
    }
  }

  /** int(s) for text: surrounding whitespace, an optional sign, then at least one
      decimal digit; anything else raises ValueError. */
  function ParseInt(s: string): (r: Result<int>)
    ensures s == [] ==> r.Err?
  {
    var n := Decimal(Strip(s));
    if n.Some? then Ok(n.value) else Err(ValueError("invalid literal for int() with base 10: '" + s + "'"))
  }

  /** An optional sign followed by at least one decimal digit, and nothing else. */
  function Decimal(t: string): Option<int> {
    if t != [] && (t[0] == '-' || t[0] == '+') then
      if |t| > 1 && AllDigits(t[1..]) then
        var n: int := DigitsValue(t[1..]);
        Some(if t[0] == '-' then -n else n)
      else None
    else if t != [] && AllDigits(t) then Some(DigitsValue(t))
    else None
  }

  /** A string of decimal digits parses to the number it denotes. */
  lemma {:induction false} ParseIntOfDigits(s: string)
    requires s != [] && AllDigits(s)
    ensures ParseInt(s) == Ok(DigitsValue(s))
  {
    StripDigits(s);
    assert IsDigit(s[0]);
    assert Decimal(s) == Some(DigitsValue(s));
  }

  lemma {:induction false} StripDigits(s: string)
    requires s != [] && AllDigits(s)
    ensures Strip(s) == s
  {
    NumeralNotSpace(s[0]);
    NumeralNotSpace(s[|s| - 1]);
    StripUnpadded(s);
  }

  lemma {:induction false} StripUnpadded(s: string)
    requires s != [] && !IsSpace(s[0]) && !IsSpace(s[|s| - 1])
    ensures Strip(s) == s
  {
    assert StripLeft(s) == s;
  }

  lemma {:induction false} DecimalOfNatToString(n: nat)
    ensures Decimal(NatToString(n)) == Some(n)
    ensures n > 0 ==> Decimal("-" + NatToString(n)) == Some(-(n as int))
  {
    var digits := NatToString(n);
    DigitsValueOfNatToString(n);
    assert IsDigit(digits[0]);
    var neg := "-" + digits;
    assert neg[1..] == digits;
  }

  /** int() parses back what str() prints. */
  lemma {:induction false} ParseIntOfIntToString(i: int)
    ensures ParseInt(IntToString(i)) == Ok(i)
  {
    var s := IntToString(i);
    var digits := NatToString(if i < 0 then -i else i);
    assert s[|s| - 1] == digits[|digits| - 1];
    NumeralNotSpace(s[0]);
    NumeralNotSpace(s[|s| - 1]);
    StripUnpadded(s);
    DecimalOfNatToString(if i < 0 then -i else i);
  }

  /** int(v) for a JSON value: numbers and booleans convert, text is parsed, and
      None, a list or a dict raises TypeError. */
  function PyInt(v: Value): (r: Result<int>)
    ensures v.Int? ==> r == Ok(v.i)
  {
    match v
    case Int(i) => Ok(i)
    case Bool(b) => Ok(if b then 1 else 0)
    case Str(s) => ParseInt(s)
    case _ => Err(TypeError("int() argument must be a string or a number"))
  }

  // ---------------------------------------------------------------------------
  // str() and repr()

  /** `str(v)`, which is also what an f-string interpolates. */
  function Show(v: Value): string
    decreases v, 1
  {
    match v
    case Null => "None"
    case Bool(b) => if b then "True" else "False"
    case Int(i) => IntToString(i)
    case Str(s) => s
    case List(_) => "[" + ShowItems(v, 0) + "]"
    case Obj(_) => "{" + ShowFields(v, 0) + "}"
  }

  /** `repr(v)`: text is quoted, everything else prints as with str(). */
  function Repr(v: Value): string
    decreases v, 2
  {
    if v.Str? then "'" + v.s + "'" else Show(v)
  }

  function ShowItems(v: Value, i: nat): string
    requires v.List? && i <= |v.items|
    decreases v, 0, |v.items| - i
  {
    if i == |v.items| then ""
    else (if i > 0 then ", " else "") + Repr(v.items[i]) + ShowItems(v, i + 1)
  }

  function ShowFields(v: Value, i: nat): string
    requires v.Obj? && i <= |v.fields|
    decreases v, 0, |v.fields| - i
  {
    if i == |v.fields| then ""
    else
      assert v.fields[i].1 < v.fields[i] < v;
      (if i > 0 then ", " else "") + "'" + v.fields[i].0 + "': " + Repr(v.fields[i].1) + ShowFields(v, i + 1)
  }

  // ---------------------------------------------------------------------------
  // Text

  /** The characters Python's str.isspace() accepts. */
  predicate IsSpace(c: char) {
    c == ' ' || ('\t' <= c <= '\r') || ('\U{1c}' <= c <= '\U{1f}') || c == '\U{85}' || c == '\U{a0}'
    || c == '\U{1680}' || ('\U{2000}' <= c <= '\U{200a}') || c == '\U{2028}' || c == '\U{2029}'
    || c == '\U{202f}' || c == '\U{205f}' || c == '\U{3000}'
  }

  /** Digits and the minus sign are not whitespace. */
  lemma NumeralNotSpace(c: char)
    requires c == '-' || IsDigit(c)
    ensures !IsSpace(c)
  {
  }

  /** `s.strip()`. */
  function Strip(s: string): (r: string)
    ensures |r| <= |s|
  {
    StripRight(StripLeft(s))
  }

  function StripLeft(s: string): (r: string)
    ensures |r| <= |s|
  {
    if s != [] && IsSpace(s[0]) then StripLeft(s[1..]) else s
  }

  function StripRight(s: string): (r: string)
    ensures |r| <= |s|
  {
    if s != [] && IsSpace(s[|s| - 1]) then StripRight(s[..|s| - 1]) else s
  }

  /** Stripping leaves no whitespace at either end, and removes only whitespace. */
  lemma {:induction false} StripEnds(s: string)
    ensures var r := Strip(s); r != [] ==> !IsSpace(r[0]) && !IsSpace(r[|r| - 1])
    ensures var l := StripLeft(s); forall i :: 0 <= i < |s| - |l| ==> IsSpace(s[i])
    ensures var r := StripRight(s); forall i :: |r| <= i < |s| ==> IsSpace(s[i])
  {
    StripLeftEnds(s);
    StripRightEnds(s);
    StripRightEnds(StripLeft(s));
    var l := StripLeft(s);
    if StripRight(l) != [] {
      assert StripRight(l)[0] == l[0];
    }
  }

  lemma {:induction false} StripLeftEnds(s: string)
    ensures var l := StripLeft(s); l == s[|s| - |l|..]
    ensures var l := StripLeft(s); l != [] ==> !IsSpace(l[0])
    ensures var l := StripLeft(s); forall i :: 0 <= i < |s| - |l| ==> IsSpace(s[i])
  {
    if s != [] && IsSpace(s[0]) {
      StripLeftEnds(s[1..]);
      var l := StripLeft(s);
      forall i | 1 <= i < |s| - |l| ensures IsSpace(s[i]) {
        assert s[1..][i - 1] == s[i];
      }
    }
  }

  lemma {:induction false} StripRightEnds(s: string)
    ensures var r := StripRight(s); r == s[..|r|]
    ensures var r := StripRight(s); r != [] ==> !IsSpace(r[|r| - 1])
    ensures var r := StripRight(s); forall i :: |r| <= i < |s| ==> IsSpace(s[i])
  {
    if s != [] && IsSpace(s[|s| - 1]) {
      StripRightEnds(s[..|s| - 1]);
      var r := StripRight(s);
      forall i | |r| <= i < |s| - 1 ensures IsSpace(s[i]) {
        assert s[..|s| - 1][i] == s[i];
      }
    }
  }

  /** Stripping keeps characters of the text only. */
  lemma StripKeepsChars(s: string)
    ensures forall k :: 0 <= k < |Strip(s)| ==> Strip(s)[k] in s
  {
    var l := StripLeft(s);
    StripLeftEnds(s);
    StripRightEnds(l);
    forall k | 0 <= k < |Strip(s)| ensures Strip(s)[k] in s {
      assert Strip(s)[k] == l[k] == s[|s| - |l| + k];
    }
  }

  /** The run of digits a text starts with. */
  function LeadingDigits(s: string): (r: string)
    ensures |r| <= |s| && r == s[..|r|] && AllDigits(r)
    ensures |r| < |s| ==> !IsDigit(s[|r|])
    ensures s != [] && IsDigit(s[0]) ==> r != []
  {
    if s != [] && IsDigit(s[0]) then [s[0]] + LeadingDigits(s[1..]) else ""
  }

  /** `re.findall(r"\d+", s)`: the maximal runs of digits, left to right. */
  function DigitRuns(s: string): (runs: seq<string>)
    ensures forall i :: 0 <= i < |runs| ==> runs[i] != [] && AllDigits(runs[i])
    decreases |s|
  {
    if s == [] then []
    else if !IsDigit(s[0]) then DigitRuns(s[1..])
    else
      var run := LeadingDigits(s);
      [run] + DigitRuns(s[|run|..])
  }

  /** `sum(int(n) for n in runs)` for runs of digits. */
  function SumOfNumbers(runs: seq<string>): nat
    requires forall i :: 0 <= i < |runs| ==> AllDigits(runs[i])
  {
    if runs == [] then 0 else DigitsValue(runs[0]) + SumOfNumbers(runs[1..])
  }

  /** A text without digits has no runs, and a text of digits is one run. */
  lemma {:induction false} DigitRunsOf(s: string)
    ensures (forall k :: 0 <= k < |s| ==> !IsDigit(s[k])) ==> DigitRuns(s) == []
    ensures s != [] && AllDigits(s) ==> DigitRuns(s) == [s]
    decreases |s|
  {
    if s != [] {
      DigitRunsOf(s[1..]);
      if AllDigits(s) {
        assert LeadingDigits(s) == s;
      }
    }
  }

  /** `s.strip(c)` for one character. */
  function StripChar(s: string, c: char): (r: string)
    ensures |r| <= |s|
    ensures r != [] ==> r[0] != c && r[|r| - 1] != c
  {
    if s != [] && s[0] == c then StripChar(s[1..], c)
    else if s != [] && s[|s| - 1] == c then StripChar(s[..|s| - 1], c)
    else s
  }

  /** The text before the first c (all of it when there is none): `s.split(c)[0]`. */
  function Before(s: string, c: char): (r: string)
    ensures |r| <= |s| && r == s[..|r|] && c !in r
    ensures |r| < |s| ==> s[|r|] == c
  {
    if s == [] || s[0] == c then "" else [s[0]] + Before(s[1..], c)
  }

  /** `s.split(c)` for a one-character separator: the text up to each c, and
      the rest after the last one; always at least one part. */
  function Split(s: string, c: char): (parts: seq<string>)
    ensures |parts| >= 1
    decreases |s|
  {
    var head := Before(s, c);
    if |head| == |s| then [s] else [head] + Split(s[|head| + 1..], c)
  }

  /** No part contains the separator, and there are at least two parts iff the
      separator occurs. */
  lemma {:induction false} SplitParts(s: string, c: char)
    ensures forall i :: 0 <= i < |Split(s, c)| ==> c !in Split(s, c)[i]
    ensures c in s <==> |Split(s, c)| >= 2
    ensures c !in s ==> Split(s, c) == [s]
    decreases |s|
  {
    var head := Before(s, c);
    if |head| < |s| {
      SplitParts(s[|head| + 1..], c);
      assert s[|head|] == c;
    }
  }

  /** `sep.join(parts)`. */
  function Join(sep: string, parts: seq<string>): string {
    if parts == [] then ""
    else if |parts| == 1 then parts[0]
    else parts[0] + sep + Join(sep, parts[1..])
  }

  /** Joining the parts of a split gives back the text. */
  lemma {:induction false} JoinSplit(s: string, c: char)
    ensures Join([c], Split(s, c)) == s
    decreases |s|
  {
    var head := Before(s, c);
    if |head| < |s| {
      var tail := s[|head| + 1..];
      JoinSplit(tail, c);
      assert Split(s, c) == [head] + Split(tail, c);
      assert s == head + [c] + tail;
    }
  }

  /** The first c in a + [c] + t is the one after a when a has none. */
  lemma {:induction false} BeforeSeparator(a: string, t: string, c: char)
    requires c !in a
    ensures Before(a + [c] + t, c) == a
    decreases |a|
  {
    if a != [] {
      assert (a + [c] + t)[1..] == a[1..] + [c] + t;
      BeforeSeparator(a[1..], t, c);
    }
  }

  /** Splitting a join gives back the parts when none of them holds the separator. */
  lemma {:induction false} SplitJoin(parts: seq<string>, c: char)
    requires |parts| >= 1
    requires forall i :: 0 <= i < |parts| ==> c !in parts[i]
    ensures Split(Join([c], parts), c) == parts
    decreases |parts|
  {
    if |parts| == 1 {
      SplitParts(parts[0], c);
    } else {
      var rest := Join([c], parts[1..]);
      var s := parts[0] + [c] + rest;
      assert Join([c], parts) == s;
      BeforeSeparator(parts[0], rest, c);
      assert s[|parts[0]| + 1..] == rest;
      SplitJoin(parts[1..], c);
      assert parts == [parts[0]] + parts[1..];
    }
  }

  /** `sub in s`. */
  predicate Contains(s: string, sub: string) {
    StartsWith(s, sub) || (s != [] && Contains(s[1..], sub))
  }

  /** A text shorter than sub does not contain it. */
  lemma {:induction false} ContainsNeedsLength(s: string, sub: string)
    requires |s| < |sub|
    ensures !Contains(s, sub)
  {
    if s != [] {
      ContainsNeedsLength(s[1..], sub);
    }
  }

  /** A text without the first character of sub does not contain it. */
  lemma {:induction false} ContainsNeedsFirst(s: string, sub: string)
    requires sub != [] && sub[0] !in s
    ensures !Contains(s, sub)
  {
    if s != [] {
      assert |sub| <= |s| ==> s[..|sub|][0] == s[0];
      ContainsNeedsFirst(s[1..], sub);
    }
  }

  /** A text that follows any prefix is still contained. */
  lemma {:induction false} ContainsAfter(prefix: string, s: string, sub: string)
    requires Contains(s, sub)
    ensures Contains(prefix + s, sub)
  {
    if prefix != [] {
      ContainsAfter(prefix[1..], s, sub);
      assert (prefix + s)[1..] == prefix[1..] + s;
    } else {
      assert prefix + s == s;
    }
  }

  /** A concatenation starts with its first part and ends with its last. */
  lemma Affixes(a: string, b: string, c: string)
    ensures StartsWith(a + b + c, a) && EndsWith(a + b + c, c)
  {
    assert (a + b + c)[..|a|] == a;
    assert (a + b + c)[|a + b + c| - |c|..] == c;
  }

  /** A contained text stays contained when something follows. */
  lemma {:induction false} ContainsBefore(s: string, suffix: string, sub: string)
    requires Contains(s, sub)
    ensures Contains(s + suffix, sub)
  {
    if StartsWith(s, sub) {
      assert (s + suffix)[..|sub|] == s[..|sub|];
    } else {
      ContainsBefore(s[1..], suffix, sub);
      assert (s + suffix)[1..] == s[1..] + suffix;
    }
  }

  /** Each part of a join is contained in it. */
  lemma {:induction false} JoinContains(sep: string, parts: seq<string>, i: nat)
    requires i < |parts|
    ensures Contains(Join(sep, parts), parts[i])
  {
    if |parts| > 1 {
      var rest := Join(sep, parts[1..]);
      if i == 0 {
        assert (parts[0] + sep + rest)[..|parts[0]|] == parts[0];
      } else {
        JoinContains(sep, parts[1..], i - 1);
        assert parts[0] + sep + rest == (parts[0] + sep) + rest;
        ContainsAfter(parts[0] + sep, rest, parts[i]);
      }
    } else {
      assert parts[0][..|parts[0]|] == parts[0];
    }
  }

  /** `sep.join(items)` over parsed values: every item must be text (TypeError). */
  function JoinTexts(sep: string, items: seq<Value>): (r: Result<string>)
    ensures r.Ok? <==> forall i :: 0 <= i < |items| ==> items[i].Str?
    ensures r.Ok? ==> r.value == Join(sep, seq(|items|, i requires 0 <= i < |items| => items[i].s))
  {
    if forall i :: 0 <= i < |items| ==> items[i].Str? then Ok(Join(sep, seq(|items|, i requires 0 <= i < |items| => items[i].s)))
    else Err(TypeError("sequence item: expected str instance"))
  }

  /** Only the empty text prints as nothing. */
  lemma ShowEmpty(v: Value)
    ensures Show(v) == "" <==> v == Str("")
  {
    match v
    case Int(i) => assert IntToString(i) != "";
    case _ =>
  }

  /** `v[k1][k2]...` read with `.get`, None once a step is missing. */
  function Path(v: Value, keys: seq<string>): Value
    decreases |keys|
  {
    if keys == [] then v else Path(At(v, keys[0]), keys[1..])
  }

  predicate StartsWith(s: string, prefix: string) {
    |prefix| <= |s| && s[..|prefix|] == prefix
  }

  predicate EndsWith(s: string, suffix: string) {
    |suffix| <= |s| && s[|s| - |suffix|..] == suffix
  }

  /** `s[lo:hi]` for non-negative bounds, which Python clamps to the text. */
  function Slice(s: string, lo: nat, hi: nat): (r: string)
    ensures |r| <= |s|
    ensures lo <= hi <= |s| ==> r == s[lo..hi]
  {
    var h := if hi <= |s| then hi else |s|;
    if lo >= h then "" else s[lo..h]
  }

  /** `v[:n]` on a parsed JSON value: the first n characters of a text or the
      first n items of a list (all of them if there are fewer); a dict cannot be
      sliced and nothing else is subscriptable (TypeError). */
  function SliceTo(v: Value, n: nat): (r: Result<Value>)
    ensures v.Str? ==> r == Ok(Str(Slice(v.s, 0, n)))
    ensures r.Ok? <==> v.Str? || v.List?
  {
    match v
    case Str(s) => Ok(Str(Slice(s, 0, n)))
    case List(items) => Ok(List(if n <= |items| then items[..n] else items))
    case Obj(_) => Err(TypeError("unhashable type: 'slice'"))
    case _ => Err(TypeError("object is not subscriptable"))
  }

  /** `v[lo:hi]` on a parsed JSON value for non-negative bounds, clamped as with
      `SliceTo`. */
  function SliceBetween(v: Value, lo: nat, hi: nat): (r: Result<Value>)
    ensures v.Str? ==> r == Ok(Str(Slice(v.s, lo, hi)))
    ensures r.Ok? <==> v.Str? || v.List?
  {
    match v
    case Str(s) => Ok(Str(Slice(s, lo, hi)))
    case List(items) =>
      var h := if hi <= |items| then hi else |items|;
      Ok(List(if lo >= h then [] else items[lo..h]))
    case Obj(_) => Err(TypeError("unhashable type: 'slice'"))
    case _ => Err(TypeError("object is not subscriptable"))
  }

  /** `needle in container` for a text needle: a substring test on text, a key
      test on a dict, a membership test on a list; None, booleans and numbers are
      not containers (TypeError). */
  function In(needle: string, container: Value): (r: Result<bool>)
    ensures container.Str? ==> r == Ok(Contains(container.s, needle))
    ensures container.Obj? ==> r == Ok(HasKey(container.fields, needle))
    ensures r.Err? <==> !(container.Str? || container.Obj? || container.List?)
  {
    match container
    case Str(s) => Ok(Contains(s, needle))
    case Obj(fields) => Ok(HasKey(fields, needle))
    case List(items) => Ok(Str(needle) in items)
    case _ => Err(TypeError("argument is not iterable"))
  }

  /** `s.replace(pat, rep)` for a non-empty pat: every occurrence, left to
      right, without overlaps. */
  function Replace(s: string, pat: string, rep: string): string
    requires pat != []
    decreases |s|
  {
    if |s| < |pat| then s
    else if s[..|pat|] == pat then rep + Replace(s[|pat|..], pat, rep)
    else [s[0]] + Replace(s[1..], pat, rep)
  }

  /** Replacing one character by another leaves none of the first and keeps the
      length. */
  lemma {:induction false} ReplaceChar(s: string, c: char, d: char)
    requires c != d
    ensures c !in Replace(s, [c], [d]) && |Replace(s, [c], [d])| == |s|
    decreases |s|
  {
    if |s| >= 1 {
      ReplaceChar(s[1..], c, d);
      assert s[1..] == s[|[c]|..];
    }
  }

  /** A text that does not contain pat is left as it is. */
  lemma {:induction false} ReplaceAbsent(s: string, pat: string, rep: string)
    requires pat != [] && !Contains(s, pat)
    ensures Replace(s, pat, rep) == s
    decreases |s|
  {
    if |s| >= |pat| {
      assert s != [];
      ReplaceAbsent(s[1..], pat, rep);
      assert s == [s[0]] + s[1..];
    }
  }

  /** `s.rfind(c)`: the index of the last c in s, or -1. */
  function LastIndexOf(s: string, c: char): (i: int)
    ensures -1 <= i < |s|
    ensures i >= 0 ==> s[i] == c
    ensures forall j :: i < j < |s| ==> s[j] != c
  {
    if s == [] then -1
    else if s[|s| - 1] == c then |s| - 1
    else
      var i := LastIndexOf(s[..|s| - 1], c);
      assert forall j :: i < j < |s| - 1 ==> s[..|s| - 1][j] == s[j];
      i
  }

  function UpperAscii(c: char): char {
    if 'a' <= c <= 'z' then (c as int - 32) as char else c
  }

  function LowerAscii(c: char): char {
    if 'A' <= c <= 'Z' then (c as int + 32) as char else c
  }

  /** `s.capitalize()`: the first character upper-case, the rest lower-case. */
  function Capitalize(s: string): (r: string)
    ensures |r| == |s|
  {
    if s == [] then "" else [UpperAscii(s[0])] + seq(|s| - 1, i requires 0 <= i < |s| - 1 => LowerAscii(s[i + 1]))
  }

  // ---------------------------------------------------------------------------
  // File names

  /** `Path(p).name`: the text after the last "/". */
  function PathName(p: string): (r: string)
    ensures '/' !in r
    ensures '/' !in p ==> r == p
  {
    var i := LastIndexOf(p, '/');
    p[i + 1..]
  }

  /** `Path(name).stem`: the name without its last suffix; a leading dot or a
      trailing dot does not start a suffix. */
  function Stem(name: string): (r: string)
    ensures |r| <= |name| && r == name[..|r|]
    ensures r != name ==> name[|r|] == '.' && 0 < |r| < |name| - 1
  {
    var i := LastIndexOf(name, '.');
    if 0 < i < |name| - 1 then name[..i] else name
  }

  /** The stem of the file a path names: `Path(Path(p).name).stem`. */
  function FileStem(p: string): string {
    Stem(PathName(p))
  }

  /** `Path(Path(file["relative_path"]).name).stem` for a file record with a text
      path; "" for any other value. */
  function StemOf(file: Value): string {
    var path := At(file, "relative_path");
    if path.Str? then FileStem(path.s) else ""
  }

  /** `os.path.splitext(p)[1][1:]`: the extension of the last path component
      without its dot, "" when that component has none (a leading dot does not count). */
  function Extension(p: string): (r: string)
    ensures '/' !in r && '.' !in r
  {
    var name := PathName(p);
    var dot := LastIndexOf(name, '.');
    if dot > 0 && exists j :: 0 <= j < dot && name[j] != '.' then name[dot + 1..] else ""
  }

  /** The text after the last c (all of it when there is none): `s.split(c)[-1]`. */
  function AfterLast(s: string, c: char): (r: string)
    ensures c !in r
    ensures |r| <= |s| && r == s[|s| - |r|..]
    ensures r == Split(s, c)[|Split(s, c)| - 1]
    decreases |s|
  {
    var head := Before(s, c);
    if |head| == |s| then s else AfterLast(s[|head| + 1..], c)
  }
}
