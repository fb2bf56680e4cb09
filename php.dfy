/** The slice of PHP's value semantics the subscriber relies on: nullable values, loose
    comparison with null, conversion to bool, `array_merge` on string-keyed arrays and
    `implode`. */
module Php {

  datatype Option<+T> = None | Some(value: T)

  /** A PHP value as far as the widget payload needs one. A string-keyed PHP array is
      `Assoc`, a list-like PHP array is `List`. Floats are carried as reals. */
  datatype Value =
    | Null
    | Bool(b: bool)
    | Int(i: int)
    | Float(f: real)
    | Str(s: string)
    | List(items: seq<Value>)
    | Assoc(entries: map<string, Value>)

  /** A PHP `?string` as a value. */
  function FromNullable(o: Option<string>): (v: Value)
    ensures v == Null <==> o.None?
    ensures o.Some? ==> v == Str(o.value)
  {
    match o
    case None => Null
    case Some(s) => Str(s)
  }

  /** PHP 8 loose comparison `v == null`: null is compared with a string as "", and with
      anything else after both sides are converted to bool. */
  predicate LooselyNull(v: Value): (r: bool)
    ensures v.Str? ==> (r <==> v.s == "")
    ensures !v.Str? ==> (r <==> !Truthy(v))
  {
    match v
    case Null => true
    case Bool(b) => !b
    case Int(i) => i == 0
    case Float(f) => f == 0.0
    case Str(s) => s == ""
    case List(xs) => |xs| == 0
    case Assoc(m) => |m| == 0
  }

  /** PHP's conversion to bool, as `if ($v)` applies it. */
  predicate Truthy(v: Value): (r: bool)
    ensures v == Null ==> !r
    ensures v.Str? ==> (r <==> v.s != "" && v.s != "0")
    ensures v.Assoc? ==> (r <==> v.entries != map[])
  {
    match v
    case Null => false
    case Bool(b) => b
    case Int(i) => i != 0
    case Float(f) => f != 0.0
    case Str(s) => s != "" && s != "0"
    case List(xs) => |xs| != 0
    case Assoc(m) => |m| != 0
  }

  /** `$s != null` on a `?string` is false exactly for null and for the empty string, while
      `if ($s)` is also false for "0". */
  lemma NullableStringTests(o: Option<string>)
    ensures !LooselyNull(FromNullable(o)) <==> o.Some? && o.value != ""
    ensures Truthy(FromNullable(o)) <==> o.Some? && o.value != "" && o.value != "0"
  {
  }

  /** `array_merge($a, $b)` when every key is a non-numeric string: all keys of both arrays,
      a key of `b` overwrites the same key of `a`, every other key of `a` keeps its value. */
  function ArrayMerge(a: map<string, Value>, b: map<string, Value>): (r: map<string, Value>)
    ensures r.Keys == a.Keys + b.Keys
    ensures forall k :: k in b ==> r[k] == b[k]
    ensures forall k :: k in a && k !in b ==> r[k] == a[k]
  {
    a + b
  }

  /** The summed lengths of the pieces. */
  function TotalLength(pieces: seq<string>): nat {
    if |pieces| == 0 then 0 else |pieces[0]| + TotalLength(pieces[1..])
  }

  /** `implode($glue, $pieces)`: the pieces in order with the glue between neighbours, so the
      result starts with the first piece and is as long as the pieces
      plus one glue per gap. */
  function Implode(glue: string, pieces: seq<string>): (s: string)
    ensures |pieces| == 0 ==> s == ""
    ensures |pieces| > 0 ==> |s| == TotalLength(pieces) + (|pieces| - 1) * |glue|
    ensures |pieces| > 0 ==> s[..|pieces[0]|] == pieces[0]
    decreases |pieces|
  {
    if |pieces| == 0 then ""
    else if |pieces| == 1 then pieces[0]
    else pieces[0] + glue + Implode(glue, pieces[1..])
  }

  /** Pieces that the glue can be told apart from: none is empty and none contains the
      glue's first character. */
  ghost predicate Separable(glue: string, pieces: seq<string>) {
    |glue| > 0 && forall i :: 0 <= i < |pieces| ==> |pieces[i]| > 0 && glue[0] !in pieces[i]
  }

  lemma ImplodeHead(glue: string, pieces: seq<string>)
    requires Separable(glue, pieces) && |pieces| > 0
    ensures var s := Implode(glue, pieces);
      && |s| >= |pieces[0]| && s[..|pieces[0]|] == pieces[0]
      && (|pieces| == 1 ==> |s| == |pieces[0]|)
      && (|pieces| > 1 ==> |s| > |pieces[0]| && s[|pieces[0]|] == glue[0])
  {
    if |pieces| > 1 {
      var s := Implode(glue, pieces);
      assert s == pieces[0] + glue + Implode(glue, pieces[1..]);
      assert s[|pieces[0]|] == glue[0];
    }
  }

  /** Separable pieces can be read back from their implosion. */
  lemma {:induction false} ImplodeInjective(glue: string, xs: seq<string>, ys: seq<string>)
    requires Separable(glue, xs) && Separable(glue, ys)
    requires Implode(glue, xs) == Implode(glue, ys)
    ensures xs == ys
    decreases |xs|
  {
    var s := Implode(glue, xs);
    if |xs| == 0 {
      if |ys| > 0 {
        ImplodeHead(glue, ys);
      }
    } else if |ys| == 0 {
      ImplodeHead(glue, xs);
    } else {
      ImplodeHead(glue, xs);
      ImplodeHead(glue, ys);
      var n, m := |xs[0]|, |ys[0]|;
      assert forall i :: 0 <= i < n ==> s[i] == xs[0][i];
      assert forall i :: 0 <= i < m ==> s[i] == ys[0][i];
      assert n == m;
      assert xs[0] == ys[0];
      if |xs| == 1 {
        assert xs == [xs[0]] && ys == [ys[0]];
      } else {
        var k := n + |glue|;
        assert s == xs[0] + glue + Implode(glue, xs[1..]);
        assert s == ys[0] + glue + Implode(glue, ys[1..]);
        assert Implode(glue, xs[1..]) == s[k..] == Implode(glue, ys[1..]);
        ImplodeInjective(glue, xs[1..], ys[1..]);
        assert xs == [xs[0]] + xs[1..] && ys == [ys[0]] + ys[1..];
      }
    }
  }
}
