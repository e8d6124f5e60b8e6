/** The optional-parameter query encoder every list and search method repeats:
    for each parameter of the method's fixed list, in order,
    `if (v !== undefined) querystring += name + '=' + v + '&'`.
    No escaping is applied. A decoder that reads `name=value&` fields back is
    the reference the encoder is proved against. */
module Query {
  import opened Wrappers
  import opened Js
  import opened Strings

  /** One optional parameter: its query key and the caller's argument. */
  datatype Param = Param(name: string, value: JsValue)

  /** The source's presence test is `!== undefined`, not truthiness. */
  predicate IsPresent(p: Param) {
    p.value != Undefined
  }

  /** What one `if (...) querystring += ...` line appends. */
  function Field(p: Param): string {
    if IsPresent(p) then p.name + "=" + ToJsString(p.value) + "&" else ""
  }

  /** The query string after running the method's lines in order. */
  function EncodeQuery(ps: seq<Param>): string {
    if ps == [] then "" else EncodeQuery(ps[..|ps| - 1]) + Field(ps[|ps| - 1])
  }

  /** The (name, text) pairs a method sends: the present parameters, in list order. */
  function Present(ps: seq<Param>): (r: seq<(string, string)>)
    ensures |r| <= |ps|
  {
    if ps == [] then []
    else
      var p := ps[|ps| - 1];
      Present(ps[..|ps| - 1]) + (if IsPresent(p) then [(p.name, ToJsString(p.value))] else [])
  }

  /** The keys of a list of pairs, in order. */
  function Keys(pairs: seq<(string, string)>): (ks: seq<string>)
    ensures |ks| == |pairs|
    ensures forall k :: 0 <= k < |pairs| ==> ks[k] == pairs[k].0
  {
    seq(|pairs|, k requires 0 <= k < |pairs| => pairs[k].0)
  }

  /** Concatenation of `name=value&` fields. */
  function EncodePairs(pairs: seq<(string, string)>): string {
    if pairs == [] then "" else pairs[0].0 + "=" + pairs[0].1 + "&" + EncodePairs(pairs[1..])
  }

  /** Reads `name=value&` fields: a name runs to the first '=', its value to
      the next '&'. None when the text is not a sequence of such fields. */
  function DecodeQuery(q: string): Option<seq<(string, string)>>
    decreases |q|
  {
    if q == [] then Some([])
    else
      var e := Find(q, {'='});
      if e == |q| then None
      else
        var rest := q[e + 1..];
        var a := Find(rest, {'&'});
        if a == |rest| then None
        else
          match DecodeQuery(rest[a + 1..])
          case None => None
          case Some(tail) => Some([(q[..e], rest[..a])] + tail)
  }

  /** Pairs whose fields can be told apart again: no '=' in a name, no '&' in a value. */
  predicate PairsSeparable(pairs: seq<(string, string)>) {
    forall k :: 0 <= k < |pairs| ==> '=' !in pairs[k].0 && '&' !in pairs[k].1
  }

  /** The same condition on a method's parameter list. */
  predicate Separable(ps: seq<Param>) {
    forall i :: 0 <= i < |ps| ==>
      '=' !in ps[i].name && (IsPresent(ps[i]) ==> '&' !in ToJsString(ps[i].value))
  }

  lemma {:induction false} EncodePairsAppend(a: seq<(string, string)>, b: seq<(string, string)>)
    ensures EncodePairs(a + b) == EncodePairs(a) + EncodePairs(b)
  {
    if a != [] {
      assert (a + b)[0] == a[0];
      assert (a + b)[1..] == a[1..] + b;
      EncodePairsAppend(a[1..], b);
    } else {
      assert a + b == b;
    }
  }

  /** The source's left-to-right accumulation produces exactly the present
      parameters' fields, in list order. */
  lemma {:induction false} EncodeQueryIsPresentFields(ps: seq<Param>)
    ensures EncodeQuery(ps) == EncodePairs(Present(ps))
  {
    if ps != [] {
      var init := ps[..|ps| - 1];
      var p := ps[|ps| - 1];
      EncodeQueryIsPresentFields(init);
      var last := if IsPresent(p) then [(p.name, ToJsString(p.value))] else [];
      EncodePairsAppend(Present(init), last);
    }
  }

  /** Encoding distributes over concatenation of parameter lists. */
  lemma {:induction false} EncodeQueryAppend(a: seq<Param>, b: seq<Param>)
    ensures EncodeQuery(a + b) == EncodeQuery(a) + EncodeQuery(b)
    decreases |b|
  {
    if b == [] {
      assert a + b == a;
    } else {
      var init := b[..|b| - 1];
      var x := b[|b| - 1];
      assert (a + b)[..|a + b| - 1] == a + init;
      assert (a + b)[|a + b| - 1] == x;
      EncodeQueryAppend(a, init);
      assert EncodeQuery(a + b) == EncodeQuery(a + init) + Field(x);
      assert EncodeQuery(b) == EncodeQuery(init) + Field(x);
    }
  }

  /** Present distributes over concatenation too, so present parameters keep
      the relative order of the method's list. */
  lemma {:induction false} PresentAppend(a: seq<Param>, b: seq<Param>)
    ensures Present(a + b) == Present(a) + Present(b)
    decreases |b|
  {
    if b == [] {
      assert a + b == a;
    } else {
      assert (a + b)[..|a + b| - 1] == a + b[..|b| - 1];
      PresentAppend(a, b[..|b| - 1]);
    }
  }

  /** The query is empty exactly when every parameter is undefined. */
  lemma {:induction false} EmptyIffAllAbsent(ps: seq<Param>)
    ensures EncodeQuery(ps) == "" <==> forall i :: 0 <= i < |ps| ==> !IsPresent(ps[i])
  {
    if ps != [] {
      var init := ps[..|ps| - 1];
      EmptyIffAllAbsent(init);
      assert forall i :: 0 <= i < |init| ==> init[i] == ps[i];
    }
  }

  /** A non-empty query always ends in the '&' of its last field. */
  lemma {:induction false} NonEmptyEndsWithAmpersand(ps: seq<Param>)
    requires EncodeQuery(ps) != ""
    ensures EncodeQuery(ps)[|EncodeQuery(ps)| - 1] == '&'
  {
    var init := ps[..|ps| - 1];
    if !IsPresent(ps[|ps| - 1]) {
      NonEmptyEndsWithAmpersand(init);
    }
  }

  /** A parameter's key is sent exactly when its value is not undefined — a
      falsy value such as 0 or "" is still sent — and then with its text. */
  lemma {:induction false} SentIffPresent(ps: seq<Param>, i: nat)
    requires i < |ps|
    requires forall j, k :: 0 <= j < k < |ps| ==> ps[j].name != ps[k].name
    ensures ps[i].name in Keys(Present(ps)) <==> IsPresent(ps[i])
    ensures IsPresent(ps[i]) ==> (ps[i].name, ToJsString(ps[i].value)) in Present(ps)
  {
    var init := ps[..|ps| - 1];
    var p := ps[|ps| - 1];
    var last := if IsPresent(p) then [(p.name, ToJsString(p.value))] else [];
    assert Present(ps) == Present(init) + last;
    KeysAppend(Present(init), last);
    if i < |ps| - 1 {
      SentIffPresent(init, i);
      assert init[i] == ps[i];
      assert ps[i].name != p.name;
    } else {
      assert forall j :: 0 <= j < |init| ==> init[j] == ps[j];
      NameNotEarlier(init, p.name);
      assert Keys(last) == if IsPresent(p) then [p.name] else [];
    }
  }

  lemma KeysAppend(a: seq<(string, string)>, b: seq<(string, string)>)
    ensures Keys(a + b) == Keys(a) + Keys(b)
  {
  }

  /** A name no parameter carries is never sent. */
  lemma {:induction false} NameNotEarlier(ps: seq<Param>, name: string)
    requires forall j :: 0 <= j < |ps| ==> ps[j].name != name
    ensures name !in Keys(Present(ps))
  {
    if ps != [] {
      var init := ps[..|ps| - 1];
      var p := ps[|ps| - 1];
      NameNotEarlier(init, name);
      var last := if IsPresent(p) then [(p.name, ToJsString(p.value))] else [];
      assert Present(ps) == Present(init) + last;
      KeysAppend(Present(init), last);
    }
  }

  /** Decoding inverts encoding on separable pairs. */
  lemma {:induction false} DecodeEncodePairs(pairs: seq<(string, string)>)
    requires PairsSeparable(pairs)
    ensures DecodeQuery(EncodePairs(pairs)) == Some(pairs)
  {
    if pairs != [] {
      var name := pairs[0].0;
      var value := pairs[0].1;
      var tail := pairs[1..];
      var t := EncodePairs(tail);
      var q := EncodePairs(pairs);
      assert q == name + ['='] + (value + "&" + t);
      FindAfter(name, '=', value + "&" + t);
      var rest := q[|name| + 1..];
      assert rest == value + ['&'] + t;
      FindAfter(value, '&', t);
      assert rest[|value| + 1..] == t;
      assert q[..|name|] == name;
      assert rest[..|value|] == value;
      assert PairsSeparable(tail) by {
        forall k | 0 <= k < |tail|
          ensures '=' !in tail[k].0 && '&' !in tail[k].1
        {
          assert tail[k] == pairs[k + 1];
        }
      }
      DecodeEncodePairs(tail);
      assert [(name, value)] + tail == pairs;
    }
  }

  /** Separable parameters yield separable pairs. */
  lemma {:induction false} PresentSeparable(ps: seq<Param>)
    requires Separable(ps)
    ensures PairsSeparable(Present(ps))
  {
    if ps != [] {
      var init := ps[..|ps| - 1];
      assert Separable(init) by {
        forall i | 0 <= i < |init|
          ensures '=' !in init[i].name && (IsPresent(init[i]) ==> '&' !in ToJsString(init[i].value))
        {
          assert init[i] == ps[i];
        }
      }
      PresentSeparable(init);
    }
  }

  /** The round trip the remote side relies on: the encoded query reads back
      as exactly the present parameters, with their texts, in list order. */
  lemma DecodeEncodeQuery(ps: seq<Param>)
    requires Separable(ps)
    ensures DecodeQuery(EncodeQuery(ps)) == Some(Present(ps))
  {
    EncodeQueryIsPresentFields(ps);
    PresentSeparable(ps);
    DecodeEncodePairs(Present(ps));
  }

  /** Falsy arguments still count as present: `0` and `""` are sent. */
  lemma FalsyValuesAreSent()
    ensures EncodeQuery([Param("page", Num(0)), Param("id", Str(""))]) == "page=0&id=&"
    ensures EncodeQuery([Param("page", Undefined), Param("limit", Undefined)]) == ""
  {
    var ps := [Param("page", Num(0)), Param("id", Str(""))];
    assert ps[..1] == [Param("page", Num(0))];
    assert ps[..1][..0] == [];
    assert ToJsString(Num(0)) == "0";
    var qs := [Param("page", Undefined), Param("limit", Undefined)];
    assert qs[..1][..0] == [];
  }
}
