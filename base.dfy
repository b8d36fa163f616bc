/**
 * Values and helpers shared by the whole service model: optional values,
 * thrown errors, JSON-like pass-through data, lodash's `uniq`, string
 * splitting and joining, the path helpers, and ordered key/value objects
 * (JavaScript objects whose key order matters once they are turned into
 * `KEY=VALUE` strings).
 */
module Base {

  datatype Option<T> = None | Some(value: T) {
    /** JavaScript's `x ?? default` for a value that is either present or null/undefined. */
    function GetOr(default: T): T {
      if Some? then value else default
    }
  }

  /** A thrown JavaScript error: its message and, once augmented, the `id` of the service it came from. */
  datatype Failure = Failure(message: string, id: Option<string>)

  datatype Result<T> = Ok(value: T) | Err(error: Failure)

  /** `error.id = this.id` before re-throwing. */
  function Tag(e: Failure, id: string): Failure {
    e.(id := Some(id))
  }

  /** Data the core passes on without looking inside (package arguments, overrides, compose extras). */
  datatype Value =
    | Null
    | Bool(b: bool)
    | Str(s: string)
    | Arr(items: seq<Value>)
    | Obj(fields: map<string, Value>)

  /** JavaScript truthiness of an optional string: present and non-empty. */
  predicate Truthy(s: Option<string>) {
    s.Some? && s.value != ""
  }

  // ---------------------------------------------------------------------------
  // Array filtering
  // ---------------------------------------------------------------------------

  /** `s.filter(keep)`: the elements that pass, in order. */
  function Filter<T(!new)>(s: seq<T>, keep: T -> bool): (r: seq<T>)
    ensures |r| <= |s|
    ensures forall x :: x in r <==> x in s && keep(x)
    decreases |s|
  {
    if s == [] then []
    else if keep(s[0]) then [s[0]] + Filter(s[1..], keep)
    else Filter(s[1..], keep)
  }

  /** A filter nothing passes returns the empty array. */
  lemma {:induction false} FilterNone<T(!new)>(s: seq<T>, keep: T -> bool)
    requires forall i :: 0 <= i < |s| ==> !keep(s[i])
    ensures Filter(s, keep) == []
    decreases |s|
  {
    if s != [] {
      FilterNone(s[1..], keep);
    }
  }

  /** Filtering distributes over concatenation. */
  lemma {:induction false} FilterAppend<T(!new)>(a: seq<T>, b: seq<T>, keep: T -> bool)
    ensures Filter(a + b, keep) == Filter(a, keep) + Filter(b, keep)
    decreases |a|
  {
    if a == [] {
      assert a + b == b;
    } else {
      assert (a + b)[0] == a[0] && (a + b)[1..] == a[1..] + b;
      FilterAppend(a[1..], b, keep);
    }
  }

  // ---------------------------------------------------------------------------
  // lodash `uniq`
  // ---------------------------------------------------------------------------

  predicate NoDup<T(==)>(s: seq<T>) {
    forall i, j :: 0 <= i < j < |s| ==> s[i] != s[j]
  }

  /** `acc` followed by each element of `s` that is not yet present, in the order of `s`. */
  function AppendNew<T(==)>(acc: seq<T>, s: seq<T>): seq<T>
    decreases |s|
  {
    if s == [] then acc
    else AppendNew(if s[0] in acc then acc else acc + [s[0]], s[1..])
  }

  /** lodash `uniq`: the first occurrence of every element, in order of first occurrence. */
  function Uniq<T(==)>(s: seq<T>): seq<T> {
    AppendNew([], s)
  }

  lemma {:induction false} AppendNewPrefix<T>(acc: seq<T>, s: seq<T>)
    ensures |acc| <= |AppendNew(acc, s)|
    ensures AppendNew(acc, s)[..|acc|] == acc
    decreases |s|
  {
    if s != [] {
      var acc' := if s[0] in acc then acc else acc + [s[0]];
      AppendNewPrefix(acc', s[1..]);
      assert acc'[..|acc|] == acc;
    }
  }

  lemma {:induction false} AppendNewElements<T>(acc: seq<T>, s: seq<T>, x: T)
    ensures x in AppendNew(acc, s) <==> x in acc || x in s
    decreases |s|
  {
    if s != [] {
      var acc' := if s[0] in acc then acc else acc + [s[0]];
      AppendNewElements(acc', s[1..], x);
      assert s == [s[0]] + s[1..];
    }
  }

  lemma {:induction false} AppendNewNoDup<T>(acc: seq<T>, s: seq<T>)
    requires NoDup(acc)
    ensures NoDup(AppendNew(acc, s))
    decreases |s|
  {
    if s != [] {
      var acc' := if s[0] in acc then acc else acc + [s[0]];
      AppendNewNoDup(acc', s[1..]);
    }
  }

  /** Adding two batches one after the other is adding their concatenation. */
  lemma {:induction false} AppendNewConcat<T>(acc: seq<T>, a: seq<T>, b: seq<T>)
    ensures AppendNew(acc, a + b) == AppendNew(AppendNew(acc, a), b)
    decreases |a|
  {
    if a == [] {
      assert a + b == b;
    } else {
      var acc' := if a[0] in acc then acc else acc + [a[0]];
      assert (a + b)[0] == a[0] && (a + b)[1..] == a[1..] + b;
      AppendNewConcat(acc', a[1..], b);
    }
  }

  /** A batch whose every element is already present adds nothing. */
  lemma {:induction false} AppendNewCovered<T>(acc: seq<T>, s: seq<T>)
    requires forall x :: x in s ==> x in acc
    ensures AppendNew(acc, s) == acc
    decreases |s|
  {
    if s != [] {
      assert s[0] in s;
      forall x | x in s[1..] ensures x in acc {
        assert x in s;
      }
      AppendNewCovered(acc, s[1..]);
    }
  }

  /** Without repetitions, adding is plain concatenation. */
  lemma {:induction false} AppendNewFresh<T>(acc: seq<T>, s: seq<T>)
    requires NoDup(acc + s)
    ensures AppendNew(acc, s) == acc + s
    decreases |s|
  {
    if s != [] {
      assert (acc + s)[|acc|] == s[0];
      assert s[0] !in acc by {
        forall i | 0 <= i < |acc| ensures acc[i] != s[0] {
          assert (acc + s)[i] == acc[i];
        }
      }
      assert acc + s == (acc + [s[0]]) + s[1..];
      AppendNewFresh(acc + [s[0]], s[1..]);
    }
  }

  /** What `uniq` returns: no repetitions, exactly the input's elements. */
  lemma UniqSpec<T>(s: seq<T>, x: T)
    ensures NoDup(Uniq(s))
    ensures x in Uniq(s) <==> x in s
  {
    AppendNewNoDup([], s);
    AppendNewElements([], s, x);
  }

  /** `uniq` leaves a repetition-free list as it is. */
  lemma UniqOfNoDup<T>(s: seq<T>)
    requires NoDup(s)
    ensures Uniq(s) == s
  {
    assert [] + s == s;
    AppendNewFresh([], s);
  }

  /**
   * `uniq([...old, ...data])` over a repetition-free `old` keeps `old` as it is,
   * in place, and appends the new elements of `data`, each once.
   */
  lemma UniqAppend<T>(old_: seq<T>, data: seq<T>)
    requires NoDup(old_)
    ensures Uniq(old_ + data) == AppendNew(old_, data)
  {
    AppendNewConcat([], old_, data);
    UniqOfNoDup(old_);
  }

  /**
   * `uniq([...old, ...data])` over a repetition-free `old`: `old` stays in place at
   * the front, nothing repeats, and exactly the elements of both are present.
   */
  lemma UniqExtend<T>(old_: seq<T>, data: seq<T>, x: T)
    requires NoDup(old_)
    ensures NoDup(Uniq(old_ + data))
    ensures |old_| <= |Uniq(old_ + data)| && Uniq(old_ + data)[..|old_|] == old_
    ensures x in Uniq(old_ + data) <==> x in old_ || x in data
  {
    UniqAppend(old_, data);
    AppendNewNoDup(old_, data);
    AppendNewPrefix(old_, data);
    AppendNewElements(old_, data, x);
  }

  /** Merging the result of a merge again is the same as merging everything at once. */
  lemma UniqOfUniqAppend<T>(a: seq<T>, b: seq<T>)
    ensures Uniq(Uniq(a) + b) == Uniq(a + b)
  {
    AppendNewNoDup([], a);
    UniqAppend(Uniq(a), b);
    AppendNewConcat([], a, b);
  }

  /** Merging the same elements a second time changes nothing. */
  lemma UniqMergeTwice<T>(s: seq<T>, extra: seq<T>)
    ensures Uniq(Uniq(s + extra) + extra) == Uniq(s + extra)
  {
    var once := Uniq(s + extra);
    AppendNewNoDup([], s + extra);
    UniqAppend(once, extra);
    forall x | x in extra
      ensures x in once
    {
      AppendNewElements([], s + extra, x);
    }
    AppendNewCovered(once, extra);
  }

  // ---------------------------------------------------------------------------
  // Strings
  // ---------------------------------------------------------------------------

  /** `parts.join(sep)`. */
  function JoinWith(parts: seq<string>, sep: string): string
    decreases |parts|
  {
    if parts == [] then ""
    else if |parts| == 1 then parts[0]
    else parts[0] + sep + JoinWith(parts[1..], sep)
  }

  /** `s.split(sep)` for a one-character separator: never empty, pieces free of `sep`. */
  function Split(s: string, sep: char): (r: seq<string>)
    ensures |r| >= 1
    decreases |s|
  {
    if s == [] then [""]
    else
      var rest := Split(s[1..], sep);
      if s[0] == sep then [""] + rest
      else [[s[0]] + rest[0]] + rest[1..]
  }

  /** Splitting on a character and joining the pieces with it gives the string back. */
  lemma {:induction false} SplitJoin(s: string, sep: char)
    ensures JoinWith(Split(s, sep), [sep]) == s
    ensures forall i :: 0 <= i < |Split(s, sep)| ==> sep !in Split(s, sep)[i]
    decreases |s|
  {
    if s != [] {
      var rest := Split(s[1..], sep);
      SplitJoin(s[1..], sep);
      if s[0] == sep {
        assert Split(s, sep) == [""] + rest;
        assert ([""] + rest)[1..] == rest;
        assert s == [sep] + s[1..];
      } else {
        var r := [[s[0]] + rest[0]] + rest[1..];
        assert Split(s, sep) == r;
        if |rest| == 1 {
          assert s == [s[0]] + s[1..];
        } else {
          assert r[1..] == rest[1..];
          assert JoinWith(rest, [sep]) == rest[0] + [sep] + JoinWith(rest[1..], [sep]);
          assert s == [s[0]] + s[1..];
        }
        forall i | 0 <= i < |r| ensures sep !in r[i] {
          if i == 0 {
            assert sep !in rest[0];
          } else {
            assert r[i] == rest[i];
          }
        }
      }
    }
  }

  /** A string without the separator splits into itself. */
  lemma {:induction false} SplitNoSep(s: string, sep: char)
    requires sep !in s
    ensures Split(s, sep) == [s]
    decreases |s|
  {
    if s != [] {
      SplitNoSep(s[1..], sep);
      assert [s[0]] + s[1..] == s;
    }
  }

  /** Splitting `a`, the separator, then `b`, with no separator in `a`: `a` is the first piece. */
  lemma {:induction false} SplitAfterPiece(a: string, b: string, sep: char)
    requires sep !in a
    ensures Split(a + [sep] + b, sep) == [a] + Split(b, sep)
    decreases |a|
  {
    if a == [] {
      assert a + [sep] + b == [sep] + b;
      assert ([sep] + b)[1..] == b;
    } else {
      SplitAfterPiece(a[1..], b, sep);
      assert (a + [sep] + b)[1..] == a[1..] + [sep] + b;
      assert [a[0]] + a[1..] == a;
    }
  }

  /** Joining pieces free of the separator and splitting again gives the pieces back. */
  lemma {:induction false} JoinSplit(parts: seq<string>, sep: char)
    requires |parts| >= 1
    requires forall i :: 0 <= i < |parts| ==> sep !in parts[i]
    ensures Split(JoinWith(parts, [sep]), sep) == parts
    decreases |parts|
  {
    if |parts| == 1 {
      SplitNoSep(parts[0], sep);
    } else {
      JoinSplit(parts[1..], sep);
      SplitAfterPiece(parts[0], JoinWith(parts[1..], [sep]), sep);
      assert [parts[0]] + parts[1..] == parts;
    }
  }

  /** `${n}` for a natural number. */
  function NatToString(n: nat): (r: string)
    ensures |r| >= 1
    decreases n
  {
    var digit := ['0' + (n % 10) as char];
    if n < 10 then digit else NatToString(n / 10) + digit
  }

  // ---------------------------------------------------------------------------
  // Paths (node's `path` module, without normalisation)
  // ---------------------------------------------------------------------------

  /** `path.join(dir, name)`. */
  function PathJoin(dir: string, name: string): string {
    if dir == "" then name else dir + "/" + name
  }

  /** `path.basename(p)`: everything after the last `/`. */
  function Basename(p: string): string
    decreases |p|
  {
    if p == [] then ""
    else if p[|p| - 1] == '/' then ""
    else Basename(p[..|p| - 1]) + [p[|p| - 1]]
  }

  /** `path.dirname(p)`: everything before the last `/`, `.` when there is none. */
  function Dirname(p: string): string
    decreases |p|
  {
    if p == [] then "."
    else if p[|p| - 1] == '/' then (if |p| == 1 then "/" else p[..|p| - 1])
    else Dirname(p[..|p| - 1])
  }

  /** The directory of a file named `name` inside a non-root `dir` is `dir`. */
  lemma {:induction false} DirnameOfJoin(dir: string, name: string)
    requires dir != "" && dir != "/" && '/' !in name
    ensures Dirname(PathJoin(dir, name)) == dir
    decreases |name|
  {
    var p := dir + "/" + name;
    if name == [] {
      assert p[..|p| - 1] == dir;
    } else {
      var n := |name| - 1;
      assert p[..|p| - 1] == dir + "/" + name[..n];
      assert '/' !in name[..n] by {
        forall i | 0 <= i < n ensures name[..n][i] != '/' {
          assert name[..n][i] == name[i];
        }
      }
      assert name[n] in name;
      DirnameOfJoin(dir, name[..n]);
    }
  }

  /** `path.resolve(root, p)`: an absolute `p` as it is, otherwise `p` under `root`. */
  function Resolve(root: string, p: string): string {
    if |p| > 0 && p[0] == '/' then p else PathJoin(root, p)
  }

  /** The last component of a name with no `/` is the whole name. */
  lemma {:induction false} BasenameAfterSlash(dir: string, name: string)
    requires '/' !in name
    ensures Basename(dir + "/" + name) == name
    decreases |name|
  {
    var p := dir + "/" + name;
    if name == [] {
      assert p[|p| - 1] == '/';
    } else {
      var n := |name| - 1;
      assert p[..|p| - 1] == dir + "/" + name[..n];
      assert p[|p| - 1] == name[n];
      assert '/' !in name[..n] by {
        forall i | 0 <= i < n ensures name[..n][i] != '/' {
          assert name[..n][i] == name[i];
        }
      }
      BasenameAfterSlash(dir, name[..n]);
      assert name == name[..n] + [name[n]];
    }
  }

  /** A file named `name` inside `dir` has basename `name`. */
  lemma BasenameOfJoin(dir: string, name: string)
    requires '/' !in name
    ensures Basename(PathJoin(dir, name)) == name
  {
    if dir == "" {
      BasenameAfterSlash("", name);
      assert Basename("" + "/" + name) == name;
      BasenameNoSlash(name);
    } else {
      BasenameAfterSlash(dir, name);
    }
  }

  lemma {:induction false} BasenameNoSlash(name: string)
    requires '/' !in name
    ensures Basename(name) == name
    decreases |name|
  {
    if name != [] {
      var n := |name| - 1;
      assert '/' !in name[..n] by {
        forall i | 0 <= i < n ensures name[..n][i] != '/' {
          assert name[..n][i] == name[i];
        }
      }
      BasenameNoSlash(name[..n]);
      assert name == name[..n] + [name[n]];
    }
  }

  // ---------------------------------------------------------------------------
  // Ordered objects: `{key: value, ...}` with string values, in key order
  // ---------------------------------------------------------------------------

  type Entries = seq<(string, string)>

  function Keys(e: Entries): seq<string> {
    seq(|e|, i requires 0 <= i < |e| => e[i].0)
  }

  /** `obj[key]` (the first entry with that key). */
  function Lookup(e: Entries, key: string): Option<string>
    decreases |e|
  {
    if e == [] then None
    else if e[0].0 == key then Some(e[0].1)
    else Lookup(e[1..], key)
  }

  /** The entries of `over` whose key `base` lacks, in order. */
  function NewEntries(over: Entries, base: Entries): Entries
    decreases |over|
  {
    if over == [] then []
    else if over[0].0 in Keys(base) then NewEntries(over[1..], base)
    else [over[0]] + NewEntries(over[1..], base)
  }

  /** The entries of `base`, each with the value `over` gives its key, if any. */
  function Overridden(base: Entries, over: Entries): Entries
    decreases |base|
  {
    if base == [] then []
    else
      var v := Lookup(over, base[0].0).GetOr(base[0].1);
      [(base[0].0, v)] + Overridden(base[1..], over)
  }

  /**
   * `{...base, ...over}`: a key of `base` keeps its position and takes the value
   * from `over` when `over` has it; keys only `over` has follow, in `over`'s order.
   */
  function Spread(base: Entries, over: Entries): Entries {
    Overridden(base, over) + NewEntries(over, base)
  }

  /** `Object.entries(obj).map(([key, value]) => `${key}=${value}`)`. */
  function KeyValueStrings(e: Entries): (r: seq<string>)
    ensures |r| == |e|
  {
    seq(|e|, i requires 0 <= i < |e| => e[i].0 + "=" + e[i].1)
  }

  lemma {:induction false} LookupAppend(a: Entries, b: Entries, key: string)
    ensures Lookup(a + b, key) == if Lookup(a, key).Some? then Lookup(a, key) else Lookup(b, key)
    decreases |a|
  {
    if a == [] {
      assert a + b == b;
    } else {
      assert (a + b)[0] == a[0] && (a + b)[1..] == a[1..] + b;
      LookupAppend(a[1..], b, key);
    }
  }

  lemma {:induction false} LookupOverridden(base: Entries, over: Entries, key: string)
    ensures Lookup(Overridden(base, over), key).Some? == Lookup(base, key).Some?
    ensures Lookup(base, key).Some? ==>
      Lookup(Overridden(base, over), key) == Some(Lookup(over, key).GetOr(Lookup(base, key).value))
    decreases |base|
  {
    if base != [] {
      LookupOverridden(base[1..], over, key);
    }
  }

  lemma {:induction false} LookupNewEntries(over: Entries, base: Entries, key: string)
    ensures Lookup(base, key).None? ==> Lookup(NewEntries(over, base), key) == Lookup(over, key)
    ensures Lookup(base, key).Some? ==> Lookup(NewEntries(over, base), key).None?
    decreases |over|
  {
    if over != [] {
      LookupNewEntries(over[1..], base, key);
      if over[0].0 in Keys(base) {
        var i :| 0 <= i < |base| && base[i].0 == over[0].0;
        LookupFound(base, i);
      } else {
        LookupInKeys(base, key);
      }
    }
  }

  lemma {:induction false} LookupInKeys(e: Entries, key: string)
    ensures Lookup(e, key).Some? ==> key in Keys(e)
    decreases |e|
  {
    if e != [] && e[0].0 != key {
      LookupInKeys(e[1..], key);
      if key in Keys(e[1..]) {
        var i :| 0 <= i < |e| - 1 && e[1..][i].0 == key;
        assert Keys(e)[i + 1] == key;
      }
    } else if e != [] {
      assert Keys(e)[0] == key;
    }
  }

  lemma {:induction false} LookupFound(e: Entries, i: nat)
    requires i < |e|
    ensures Lookup(e, e[i].0).Some?
    decreases i
  {
    if i > 0 && e[0].0 != e[i].0 {
      LookupFound(e[1..], i - 1);
    }
  }

  /** The first entry with a key is the one `Lookup` finds. */
  lemma {:induction false} LookupAt(e: Entries, i: nat, key: string)
    requires i < |e| && e[i].0 == key
    requires forall j :: 0 <= j < i ==> e[j].0 != key
    ensures Lookup(e, key) == Some(e[i].1)
    decreases i
  {
    if i > 0 {
      LookupAt(e[1..], i - 1, key);
    }
  }

  /** A key `Lookup` finds shows up as `key=value` among the entry strings. */
  lemma {:induction false} LookupKeyValue(e: Entries, key: string)
    ensures Lookup(e, key).Some? ==> key + "=" + Lookup(e, key).value in KeyValueStrings(e)
    decreases |e|
  {
    if e != [] {
      if e[0].0 == key {
        assert KeyValueStrings(e)[0] == key + "=" + e[0].1;
      } else {
        LookupKeyValue(e[1..], key);
        if Lookup(e, key).Some? {
          var i :| 0 <= i < |e| - 1 && KeyValueStrings(e[1..])[i] == key + "=" + Lookup(e, key).value;
          assert KeyValueStrings(e)[i + 1] == KeyValueStrings(e[1..])[i];
        }
      }
    }
  }

  /** Reading a key of `{...base, ...over}`: `over` wins, `base` fills in. */
  lemma SpreadLookup(base: Entries, over: Entries, key: string)
    ensures Lookup(Spread(base, over), key) ==
      if Lookup(over, key).Some? then Lookup(over, key) else Lookup(base, key)
  {
    LookupAppend(Overridden(base, over), NewEntries(over, base), key);
    LookupOverridden(base, over, key);
    LookupNewEntries(over, base, key);
  }
}
