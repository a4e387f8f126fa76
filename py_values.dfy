/**
 * The Python values that the command-line layer manipulates: the entries of the
 * parsed-argument dictionary (what argparse stores, plus whatever a JSON config
 * file adds), their truthiness, dictionary lookup with KeyError, and the
 * exceptions the dispatch can raise.
 */
module PyValues {
  import opened Wrappers

  /** A value stored in the argument dictionary or in a JSON object. */
  datatype Value =
    | Null
    | Bool(b: bool)
    | Int(i: int)
    | Str(s: string)
    | List(items: seq<Value>)

  /** `bool(v)` in Python: None, False, 0, '' and [] are false. */
  predicate Truthy(v: Value) {
    match v
    case Null => false
    case Bool(b) => b
    case Int(i) => i != 0
    case Str(s) => s != ""
    case List(items) => items != []
  }

  /** The exceptions the modelled code can raise. */
  datatype Error =
    | KeyError(key: string)
    | TypeError(context: string)
    | AttributeError(context: string)

  /** A Python dict from names to values (the `vars(args)` dictionary, a JSON object). */
  type Args = map<string, Value>

  /** `args[key]`: the stored value, or KeyError when the key is missing. */
  function Lookup(args: Args, key: string): (r: Result<Value, Error>)
    ensures r.Ok? <==> key in args
    ensures r.Ok? ==> r.value == args[key]
    ensures r.Err? ==> r.error == KeyError(key)
  {
    if key in args then Ok(args[key]) else Err(KeyError(key))
  }

  /** True when `v` is a Python list whose every element is a string. */
  predicate IsStringList(v: Value) {
    v.List? && forall i :: 0 <= i < |v.items| ==> v.items[i].Str?
  }

  /** The strings of a list of strings; any other value is a TypeError. */
  function Strings(v: Value, context: string): (r: Result<seq<string>, Error>)
    ensures r.Ok? <==> IsStringList(v)
    ensures r.Ok? ==> |r.value| == |v.items|
    ensures r.Ok? ==> forall i :: 0 <= i < |r.value| ==> v.items[i] == Str(r.value[i])
    ensures r.Err? ==> r.error == TypeError(context)
  {
    if IsStringList(v) then
      Ok(seq(|v.items|, i requires 0 <= i < |v.items| => v.items[i].s))
    else
      Err(TypeError(context))
  }

  /**
   * The strings `str.join` iterates over: the elements of a list of strings,
   * or the one-character strings of a string. Anything else is a TypeError.
   */
  function JoinOperands(v: Value, context: string): (r: Result<seq<string>, Error>)
    ensures r.Ok? <==> IsStringList(v) || v.Str?
    ensures r.Ok? && v.List? ==> |r.value| == |v.items| && forall i :: 0 <= i < |r.value| ==> v.items[i] == Str(r.value[i])
    ensures r.Ok? && v.Str? ==> |r.value| == |v.s| && forall i :: 0 <= i < |r.value| ==> r.value[i] == [v.s[i]]
    ensures r.Err? ==> r.error == TypeError(context)
  {
    if v.Str? then Ok(seq(|v.s|, i requires 0 <= i < |v.s| => [v.s[i]])) else Strings(v, context)
  }
}

/** Python's `str.split` with a one-character separator, and its inverse `str.join`. */
module PyStrings {

  /** Number of occurrences of `c` in `s`. */
  function Occurrences(s: string, c: char): nat {
    if s == [] then 0 else (if s[0] == c then 1 else 0) + Occurrences(s[1..], c)
  }

  /**
   * `s.split(sep)`: the pieces between separators, empty pieces kept, so
   * there is always one more piece than there are separators.
   */
  function Split(s: string, sep: char): (parts: seq<string>)
    ensures |parts| == Occurrences(s, sep) + 1
    ensures forall i :: 0 <= i < |parts| ==> sep !in parts[i]
  {
    if s == [] then
      [""]
    else
      var rest := Split(s[1..], sep);
      if s[0] == sep then [""] + rest
      else [[s[0]] + rest[0]] + rest[1..]
  }

  /** `sep.join(parts)`. */
  function Join(parts: seq<string>, sep: char): string {
    if parts == [] then ""
    else if |parts| == 1 then parts[0]
    else parts[0] + [sep] + Join(parts[1..], sep)
  }

  /** Joining the pieces of a split gives back the original string. */
  lemma {:induction false} JoinSplit(s: string, sep: char)
    ensures Join(Split(s, sep), sep) == s
  {
    if s != [] {
      var rest := Split(s[1..], sep);
      JoinSplit(s[1..], sep);
      if s[0] == sep {
        assert Split(s, sep) == [""] + rest;
        assert ([""] + rest)[1..] == rest;
        assert s == [sep] + s[1..];
      } else if |rest| == 1 {
        assert s == [s[0]] + s[1..];
      } else {
        var parts := Split(s, sep);
        assert parts[1..] == rest[1..];
        calc {
          Join(parts, sep);
          [s[0]] + rest[0] + [sep] + Join(rest[1..], sep);
          [s[0]] + (rest[0] + [sep] + Join(rest[1..], sep));
          [s[0]] + Join(rest, sep);
          s;
        }
      }
    }
  }

  /** Splitting a piece free of separators followed by a separator peels that piece off. */
  lemma {:induction false} SplitAfterPiece(p: string, t: string, sep: char)
    requires sep !in p
    ensures Split(p + [sep] + t, sep) == [p] + Split(t, sep)
  {
    if p == [] {
      assert p + [sep] + t == [sep] + t;
      assert ([sep] + t)[1..] == t;
    } else {
      SplitAfterPiece(p[1..], t, sep);
      assert (p + [sep] + t)[1..] == p[1..] + [sep] + t;
      assert [p[0]] + p[1..] == p;
    }
  }

  /** A string free of separators splits into itself alone. */
  lemma {:induction false} SplitNoSeparator(p: string, sep: char)
    requires sep !in p
    ensures Split(p, sep) == [p]
  {
    if p != [] {
      SplitNoSeparator(p[1..], sep);
      assert [p[0]] + p[1..] == p;
    }
  }

  /** Splitting a join of separator-free pieces gives back the pieces. */
  lemma {:induction false} SplitJoin(parts: seq<string>, sep: char)
    requires |parts| >= 1
    requires forall i :: 0 <= i < |parts| ==> sep !in parts[i]
    ensures Split(Join(parts, sep), sep) == parts
  {
    if |parts| == 1 {
      SplitNoSeparator(parts[0], sep);
    } else {
      SplitJoin(parts[1..], sep);
      SplitAfterPiece(parts[0], Join(parts[1..], sep), sep);
      assert [parts[0]] + parts[1..] == parts;
    }
  }

  /** The last piece of a join ends the joined string, after a separator when there are several pieces. */
  lemma {:induction false} JoinLast(parts: seq<string>, sep: char)
    requires |parts| >= 2
    ensures Join(parts, sep) == Join(parts[..|parts| - 1], sep) + [sep] + parts[|parts| - 1]
  {
    if |parts| > 2 {
      JoinLast(parts[1..], sep);
      assert parts[1..][..|parts| - 2] == parts[..|parts| - 1][1..];
    }
  }
}
