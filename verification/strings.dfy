/** The two string operations of JavaScript the core relies on:
    `Array.prototype.join` and `String.prototype.split` on a one-character
    separator. */
module Strings {

  /** `parts.join(sep)`: the parts with `sep` between neighbours. */
  function Join(parts: seq<string>, sep: string): string
  {
    if |parts| == 0 then ""
    else if |parts| == 1 then parts[0]
    else parts[0] + sep + Join(parts[1..], sep)
  }

  /** `s.split(sep)` for a one-character separator: the maximal runs between
      separators, empty runs included; the empty string splits into `[""]`. */
  function Split(s: string, sep: char): (parts: seq<string>)
    decreases |s|
    ensures |parts| >= 1
    ensures forall i :: 0 <= i < |parts| ==> sep !in parts[i]
    ensures Join(parts, [sep]) == s
  {
    if |s| == 0 then [""]
    else
      var rest := Split(s[1..], sep);
      if s[0] == sep then
        assert Join([""] + rest, [sep]) == [sep] + Join(rest, [sep]) by {
          assert ([""] + rest)[1..] == rest;
        }
        assert [sep] + s[1..] == s;
        [""] + rest
      else
        JoinConsChar(s[0], rest, [sep]);
        assert [s[0]] + s[1..] == s;
        [[s[0]] + rest[0]] + rest[1..]
  }

  /** Prepending a character to the first part prepends it to the joined text. */
  lemma JoinConsChar(c: char, parts: seq<string>, sep: string)
    requires |parts| >= 1
    ensures Join([[c] + parts[0]] + parts[1..], sep) == [c] + Join(parts, sep)
  {
    var ps := [[c] + parts[0]] + parts[1..];
    assert ps[1..] == parts[1..];
  }

  /** Joining a part in front of a non-empty list puts it and one separator
      in front of the list's join. */
  lemma JoinCons(head: string, rest: seq<string>, sep: string)
    requires |rest| >= 1
    ensures Join([head] + rest, sep) == head + sep + Join(rest, sep)
  {
    assert ([head] + rest)[1..] == rest;
  }

  /** Four leading parts joined in front of a non-empty rest, each followed by
      one separator. */
  lemma JoinFour(a: string, b: string, c: string, d: string, rest: seq<string>, sep: string)
    requires |rest| >= 1
    ensures Join([a, b, c, d] + rest, sep) == a + sep + b + sep + c + sep + d + sep + Join(rest, sep)
  {
    var t3 := [d] + rest;
    JoinCons(d, rest, sep);
    var t2 := [c] + t3;
    JoinCons(c, t3, sep);
    var t1 := [b] + t2;
    JoinCons(b, t2, sep);
    JoinCons(a, t1, sep);
    assert [a] + t1 == [a, b, c, d] + rest;
  }

  /** Splitting undoes joining when no part contains the separator. */
  lemma {:induction false} SplitJoin(parts: seq<string>, sep: char)
    requires |parts| >= 1
    requires forall i :: 0 <= i < |parts| ==> sep !in parts[i]
    ensures Split(Join(parts, [sep]), sep) == parts
    decreases |parts|, |parts[0]|
  {
    if |parts[0]| == 0 {
      if |parts| == 1 {
        assert Join(parts, [sep]) == "";
      } else {
        var tail := parts[1..];
        SplitJoin(tail, sep);
        var s := Join(parts, [sep]);
        assert s == [sep] + Join(tail, [sep]);
        assert s[1..] == Join(tail, [sep]);
        assert parts == [""] + tail;
      }
    } else {
      var c := parts[0][0];
      var shorter := [parts[0][1..]] + parts[1..];
      assert c != sep by { assert c in parts[0]; }
      assert forall i :: 0 <= i < |shorter| ==> sep !in shorter[i] by {
        forall i | 0 <= i < |shorter| ensures sep !in shorter[i] {
          if i > 0 {
            assert shorter[i] == parts[i];
          }
        }
      }
      SplitJoin(shorter, sep);
      JoinConsChar(c, shorter, [sep]);
      assert [[c] + shorter[0]] + shorter[1..] == parts by {
        assert [c] + parts[0][1..] == parts[0];
      }
      var s := Join(parts, [sep]);
      assert s == [c] + Join(shorter, [sep]);
      assert s[0] == c && s[1..] == Join(shorter, [sep]);
      var rest := Split(s[1..], sep);
      assert rest == shorter;
    }
  }
}
