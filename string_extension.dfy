/**
 * StringExtension.ParseToDictionary: turns command-line style arguments
 * `key=value` into a dictionary, with `String.Split(char)` as its tokenizer.
 */
module Extensions {
  import opened Wrappers

  /**
   * `String.Split(char)` with no options: the delimiter-free segments of `s`
   * between occurrences of `d`, in order, empty segments included. There is
   * always at least one segment (the empty string splits into [""]).
   */
  function Split(s: string, d: char): (parts: seq<string>)
    ensures |parts| >= 1
    ensures forall i :: 0 <= i < |parts| ==> d !in parts[i]
    decreases |s|
  {
    if s == [] then [""]
    else
      var rest := Split(s[1..], d);
      if s[0] == d then [""] + rest
      else [[s[0]] + rest[0]] + rest[1..]
  }

  /** `String.Join(char, parts)`: the segments with one delimiter between neighbours. */
  function Join(parts: seq<string>, d: char): string
  {
    if parts == [] then ""
    else if |parts| == 1 then parts[0]
    else parts[0] + [d] + Join(parts[1..], d)
  }

  /** Joining the segments back with the delimiter gives the original string. */
  lemma {:induction false} JoinSplit(s: string, d: char)
    ensures Join(Split(s, d), d) == s
    decreases |s|
  {
    if s != [] {
      JoinSplit(s[1..], d);
      var rest := Split(s[1..], d);
      if s[0] == d {
        assert Split(s, d) == [""] + rest;
        assert s == [d] + s[1..];
      } else {
        assert Split(s, d) == [[s[0]] + rest[0]] + rest[1..];
        if |rest| == 1 {
          assert s == [s[0]] + rest[0];
        } else {
          assert Join(rest, d) == rest[0] + [d] + Join(rest[1..], d);
          assert s == [s[0]] + s[1..];
        }
      }
    }
  }

  /** A delimiter-free prefix stays glued to the first segment of what follows it. */
  lemma {:induction false} SplitAfterWord(w: string, s: string, d: char)
    requires d !in w
    ensures Split(w + s, d) == [w + Split(s, d)[0]] + Split(s, d)[1..]
    decreases |w|
  {
    if w != [] {
      assert (w + s)[1..] == w[1..] + s;
      assert w[0] in w;
      SplitAfterWord(w[1..], s, d);
      assert [w[0]] + (w[1..] + Split(s, d)[0]) == w + Split(s, d)[0];
    } else {
      assert w + s == s;
      assert w + Split(s, d)[0] == Split(s, d)[0];
      assert Split(s, d) == [Split(s, d)[0]] + Split(s, d)[1..];
    }
  }

  /** Splitting the join of delimiter-free segments gives the segments back. */
  lemma {:induction false} SplitJoin(parts: seq<string>, d: char)
    requires |parts| >= 1
    requires forall i :: 0 <= i < |parts| ==> d !in parts[i]
    ensures Split(Join(parts, d), d) == parts
    decreases |parts|
  {
    if |parts| == 1 {
      SplitAfterWord(parts[0], "", d);
      assert parts[0] + "" == parts[0];
    } else {
      var tail := Join(parts[1..], d);
      SplitJoin(parts[1..], d);
      assert Split([d] + tail, d) == [""] + Split(tail, d) by {
        assert ([d] + tail)[1..] == tail;
      }
      assert parts[0] + [d] + tail == parts[0] + ([d] + tail);
      SplitAfterWord(parts[0], [d] + tail, d);
      assert parts[0] + "" == parts[0];
      assert parts == [parts[0]] + parts[1..];
    }
  }

  /** The key of one argument: its first segment (the dictionary key is `item[0]`). */
  function KeyOf(s: string, d: char): string
  {
    Split(s, d)[0]
  }

  /** The value of one argument: its second segment, or null when there is none. */
  function ValueOf(s: string, d: char): Option<string>
  {
    var item := Split(s, d);
    if |item| > 1 then Some(item[1]) else None
  }

  /** The first segment is exactly the text before the first delimiter. */
  lemma {:induction false} SplitHead(s: string, d: char)
    ensures |Split(s, d)[0]| <= |s| && s[..|Split(s, d)[0]|] == Split(s, d)[0]
    ensures |Split(s, d)| == 1 <==> d !in s
    ensures |Split(s, d)| > 1 ==>
      |Split(s, d)[0]| < |s| && s[|Split(s, d)[0]|] == d &&
      Split(s, d)[1..] == Split(s[|Split(s, d)[0]| + 1..], d)
    decreases |s|
  {
    if s != [] {
      SplitHead(s[1..], d);
      if s[0] != d {
        assert s == [s[0]] + s[1..];
        assert |Split(s, d)| == |Split(s[1..], d)|;
        assert d in s <==> d in s[1..];
        var k := Split(s[1..], d)[0];
        assert Split(s, d)[0] == [s[0]] + k;
        if |Split(s, d)| > 1 {
          assert s[1..][|k| + 1..] == s[|k| + 2..];
        }
      } else {
        assert s[0] in s;
      }
    }
  }

  /**
   * What one argument contributes: its key is the text before the first
   * delimiter, its value is the text between the first and the second
   * delimiter (the rest is dropped), and it has no value exactly when it
   * holds no delimiter.
   */
  lemma ArgumentShape(s: string, d: char)
    ensures d !in KeyOf(s, d) && |KeyOf(s, d)| <= |s| && s[..|KeyOf(s, d)|] == KeyOf(s, d)
    ensures ValueOf(s, d).None? <==> d !in s
    ensures ValueOf(s, d).Some? ==>
      |KeyOf(s, d)| < |s| && s[|KeyOf(s, d)|] == d &&
      ValueOf(s, d).value == KeyOf(s[|KeyOf(s, d)| + 1..], d)
  {
    SplitHead(s, d);
  }

  /** The dictionary the loop builds: each argument in turn overwrites its key. */
  function Parsed(args: seq<string>, d: char): map<string, Option<string>>
  {
    if args == [] then map[]
    else Parsed(args[..|args| - 1], d)[KeyOf(args[|args| - 1], d) := ValueOf(args[|args| - 1], d)]
  }

  /**
   * ParseToDictionary: null for a null or empty argument array, otherwise the
   * dictionary built by splitting every argument at `keyValueDelimiter`.
   */
  method ParseToDictionary(args: Option<seq<string>>, keyValueDelimiter: char := '=')
    returns (result: Option<map<string, Option<string>>>)
    ensures args.None? || |args.value| == 0 ==> result == None
    ensures args.Some? && |args.value| > 0 ==> result == Some(Parsed(args.value, keyValueDelimiter))
  {
    if args.None? || |args.value| <= 0 {
      return None;
    }
    var a := args.value;
    var dictionary: map<string, Option<string>> := map[];
    for i := 0 to |a|
      invariant dictionary == Parsed(a[..i], keyValueDelimiter)
    {
      assert a[..i + 1][..i] == a[..i];
      var item := Split(a[i], keyValueDelimiter);
      // `item` is never empty, so the early return on an empty split never happens;
      // Add on a new key and the indexer on an existing one both leave the key mapped to the new value.
      dictionary := dictionary[item[0] := if |item| > 1 then Some(item[1]) else None];
    }
    assert a[..|a|] == a;
    return Some(dictionary);
  }

  /** Every argument contributes its key, and no other key appears. */
  lemma {:induction false} ParsedKeys(args: seq<string>, d: char)
    ensures Parsed(args, d).Keys == set s | s in args :: KeyOf(s, d)
    decreases |args|
  {
    if args != [] {
      var init := args[..|args| - 1];
      ParsedKeys(init, d);
      assert args == init + [args[|args| - 1]];
      assert forall s :: s in args <==> s in init || s == args[|args| - 1];
    }
  }

  /** The dictionary has at most one entry per argument. */
  lemma {:induction false} ParsedSize(args: seq<string>, d: char)
    ensures |Parsed(args, d)| <= |args|
    decreases |args|
  {
    if args != [] {
      var init := args[..|args| - 1];
      var k := KeyOf(args[|args| - 1], d);
      ParsedSize(init, d);
      var m := Parsed(init, d);
      assert Parsed(args, d).Keys == m.Keys + {k};
      assert |m.Keys + {k}| <= |m.Keys| + |{k}|;
    }
  }

  /** For a repeated key the last occurrence's value wins. */
  lemma {:induction false} ParsedLastWins(args: seq<string>, d: char, i: nat)
    requires i < |args|
    requires forall j :: i < j < |args| ==> KeyOf(args[j], d) != KeyOf(args[i], d)
    ensures KeyOf(args[i], d) in Parsed(args, d)
    ensures Parsed(args, d)[KeyOf(args[i], d)] == ValueOf(args[i], d)
    decreases |args|
  {
    if i < |args| - 1 {
      var init := args[..|args| - 1];
      assert init[i] == args[i];
      ParsedLastWins(init, d, i);
    }
  }

  /**
   * With the default delimiter '=': `k=v1=extra` keeps only `v1`, a bare flag
   * maps to null, and a later `k=v2` overwrites the first value of `k`.
   */
  lemma DefaultDelimiterExample(k: string, v1: string, extra: string, flag: string, v2: string)
    requires '=' !in k && '=' !in v1 && '=' !in extra && '=' !in flag && '=' !in v2
    requires flag != k
    ensures Parsed([k + "=" + v1 + "=" + extra, flag, k + "=" + v2], '=') ==
      map[k := Some(v2), flag := None]
  {
    var a := k + "=" + v1 + "=" + extra;
    var c := k + "=" + v2;
    assert Split(a, '=') == [k, v1, extra] by {
      assert [k, v1, extra][1..] == [v1, extra] && [v1, extra][1..] == [extra];
      assert Join([v1, extra], '=') == v1 + "=" + extra;
      assert Join([k, v1, extra], '=') == a;
      SplitJoin([k, v1, extra], '=');
    }
    assert Split(c, '=') == [k, v2] by {
      assert Join([k, v2], '=') == c;
      SplitJoin([k, v2], '=');
    }
    assert Split(flag, '=') == [flag] by {
      SplitJoin([flag], '=');
    }
    var args := [a, flag, c];
    assert args[..2][..1] == [a];
    assert args[..2] == [a, flag];
    assert [a][..0] == [];
    assert Parsed([a], '=') == map[k := Some(v1)];
    assert Parsed([a, flag], '=') == map[k := Some(v1), flag := None];
  }
}
