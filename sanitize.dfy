/**
 * The clean-up of a converted request before it goes to an API-key account: the public
 * Gemini API refuses `id` inside `functionResponse`.
 */
module Sanitize {
  import opened Wire

  // ---------------------------------------------------------------- API-key clean-up

  const TypeError := "TypeError: cannot read properties of null or iterate a non-iterable"

  /** A `functionResponse` with no truthy `id`, and no truthy `response.id`. */
  predicate CleanResponse(fr: Json) {
    var resp := Get(fr, "response");
    !HasTruthyId(fr) && !(resp.Some? && Truthy(resp.value) && HasTruthyId(resp.value))
  }

  predicate HasTruthyId(j: Json) {
    Get(j, "id").Some? && Truthy(Get(j, "id").value)
  }

  /** `if (o.id) delete o.id` on an object. */
  function DropTruthyId(j: Json): (r: Json)
    ensures !HasTruthyId(r)
    ensures forall k :: k != "id" ==> Get(r, k) == Get(j, k)
    ensures r.JObj? == j.JObj?
    ensures !HasTruthyId(j) ==> r == j
    ensures HasTruthyId(j) ==> Get(r, "id").None?
  {
    if HasTruthyId(j) then JObj(Remove(j.fields, "id")) else j
  }

  /** Drops `functionResponse.id` and `functionResponse.response.id` when they are truthy. */
  function CleanFunctionResponse(fr: Json): (r: Json)
    ensures fr.JObj? ==> r.JObj? && CleanResponse(r)
    ensures !fr.JObj? || CleanResponse(fr) ==> r == fr
    ensures fr.JObj? ==> forall k :: k != "id" && k != "response" ==> Get(r, k) == Get(fr, k)
    ensures !HasTruthyId(fr) ==> Get(r, "id") == Get(fr, "id")
    ensures HasTruthyId(fr) ==> Get(r, "id").None?
    ensures var resp := Get(fr, "response");
      fr.JObj? && resp.Some? && Truthy(resp.value) && HasTruthyId(resp.value) ==>
        Get(r, "response").Some? && Get(Get(r, "response").value, "id").None?
    ensures fr.JObj? ==> (Get(r, "response").Some? <==> Get(fr, "response").Some?)
    ensures fr.JObj? && Get(fr, "response").Some? ==>
      forall k :: k != "id" ==> Get(Get(r, "response").value, k) == Get(Get(fr, "response").value, k)
    ensures fr.JObj? && Get(fr, "response").Some? && !HasTruthyId(Get(fr, "response").value) ==>
      Get(r, "response") == Get(fr, "response")
  {
    if fr.JObj? then
      var f1 := DropTruthyId(fr);
      var resp := Get(f1, "response");
      if resp.Some? && Truthy(resp.value) && HasTruthyId(resp.value) then
        JObj(Put(f1.fields, "response", DropTruthyId(resp.value)))
      else f1
    else fr
  }

  /** One part: reading `functionResponse` of `null` throws. */
  function CleanPart(p: Json): (r: Result<Json>)
    ensures r.Err? <==> p.JNull?
    ensures r.Err? ==> r.error == TypeError
    ensures !p.JObj? && !p.JNull? ==> r == Ok(p)
    ensures p.JObj? ==> r.Ok? && r.value.JObj? && forall k :: k != "functionResponse" ==> Get(r.value, k) == Get(p, k)
    ensures p.JObj? && Get(p, "functionResponse").Some? && Truthy(Get(p, "functionResponse").value) ==>
      Get(r.value, "functionResponse") == Some(CleanFunctionResponse(Get(p, "functionResponse").value))
    ensures p.JObj? && !(Get(p, "functionResponse").Some? && Truthy(Get(p, "functionResponse").value)) ==> r == Ok(p)
  {
    if p.JNull? then Err(TypeError)
    else if p.JObj? then
      var fr := Lookup(p.fields, "functionResponse");
      if fr.Some? && Truthy(fr.value) then Ok(JObj(Put(p.fields, "functionResponse", CleanFunctionResponse(fr.value))))
      else Ok(p)
    else Ok(p)
  }

  /** The parts in order; the first failing part fails them all. */
  function CleanParts(ps: seq<Json>): (r: Result<seq<Json>>)
    ensures r.Ok? <==> forall i :: 0 <= i < |ps| ==> CleanPart(ps[i]).Ok?
    ensures r.Ok? ==> |r.value| == |ps| && forall i :: 0 <= i < |ps| ==> r.value[i] == CleanPart(ps[i]).value
    ensures r.Err? ==> r.error == TypeError
  {
    if ps == [] then Ok([])
    else match CleanParts(ps[..|ps| - 1])
      case Err(e) => Err(e)
      case Ok(a) =>
        match CleanPart(ps[|ps| - 1])
        case Err(e) => Err(e)
        case Ok(q) => Ok(a + [q])
  }

  /** One content: `content.parts` of `null` throws; truthy parts are iterated. */
  function CleanContent(c: Json): (r: Result<Json>)
    ensures r.Err? ==> r.error == TypeError
    ensures !c.JObj? ==> (r.Err? <==> c.JNull?) && (r.Ok? ==> r.value == c)
    ensures c.JObj? ==> var parts := Get(c, "parts");
      (parts.None? || !Truthy(parts.value) || parts.value.JStr? ==> r == Ok(c)) &&
      (parts.Some? && Truthy(parts.value) && !parts.value.JArr? && !parts.value.JStr? ==> r.Err?)
    ensures c.JObj? && Get(c, "parts").Some? && Get(c, "parts").value.JArr? ==>
      var cleaned := CleanParts(Get(c, "parts").value.items);
      (r.Ok? <==> cleaned.Ok?) &&
      (r.Ok? ==> r.value.JObj? && Get(r.value, "parts") == Some(JArr(cleaned.value)) &&
                 forall k :: k != "parts" ==> Get(r.value, k) == Get(c, k))
  {
    if c.JNull? then Err(TypeError)
    else if c.JObj? then
      var parts := Lookup(c.fields, "parts");
      if parts.Some? && Truthy(parts.value) then
        match parts.value
        case JArr(items) =>
          (match CleanParts(items)
           case Err(e) => Err(e)
           case Ok(items') => Ok(JObj(Put(c.fields, "parts", JArr(items')))))
        case JStr(_) => Ok(c)
        case _ => Err(TypeError)
      else Ok(c)
    else Ok(c)
  }

  function CleanContents(cs: seq<Json>): (r: Result<seq<Json>>)
    ensures r.Ok? <==> forall i :: 0 <= i < |cs| ==> CleanContent(cs[i]).Ok?
    ensures r.Ok? ==> |r.value| == |cs| && forall i :: 0 <= i < |cs| ==> r.value[i] == CleanContent(cs[i]).value
    ensures r.Err? ==> r.error == TypeError
  {
    if cs == [] then Ok([])
    else match CleanContents(cs[..|cs| - 1])
      case Err(e) => Err(e)
      case Ok(a) =>
        match CleanContent(cs[|cs| - 1])
        case Err(e) => Err(e)
        case Ok(q) => Ok(a + [q])
  }

  /** `_sanitizeForApiKey` on a request body; `Err` where the code throws. */
  function Sanitized(body: Json): (r: Result<Json>)
    ensures r.Err? ==> r.error == TypeError
    ensures Get(body, "contents").None? || !Truthy(Get(body, "contents").value) || Get(body, "contents").value.JStr? ==>
      r == Ok(body)
    ensures Get(body, "contents").Some? && Get(body, "contents").value.JArr? ==>
      var cleaned := CleanContents(Get(body, "contents").value.items);
      (r.Ok? <==> cleaned.Ok?) &&
      (r.Ok? ==> Get(r.value, "contents") == Some(JArr(cleaned.value)))
    ensures var contents := Get(body, "contents");
      contents.Some? && Truthy(contents.value) && !contents.value.JArr? && !contents.value.JStr? ==> r.Err?
  {
    var contents := Get(body, "contents");
    if !Truthy(body) || contents.None? || !Truthy(contents.value) then Ok(body)
    else match contents.value
      case JArr(items) =>
        (match CleanContents(items)
         case Err(e) => Err(e)
         case Ok(items') => Ok(JObj(Put(body.fields, "contents", JArr(items')))))
      case JStr(_) => Ok(body)
      case _ => Err(TypeError)
  }

  lemma {:induction false} PutSame(fields: seq<Field>, k: string, v: Json)
    requires Lookup(fields, k) == Some(v)
    ensures Put(fields, k, v) == fields
    decreases |fields|
  {
    if fields[0].key != k {
      PutSame(fields[1..], k, v);
    }
  }

  lemma {:induction false} CleanPartsPrefix(ps: seq<Json>, n: nat)
    requires n <= |ps| && CleanParts(ps[..n]).Err?
    ensures CleanParts(ps) == CleanParts(ps[..n])
    decreases |ps| - n
  {
    if n < |ps| {
      assert ps[..n + 1][..n] == ps[..n];
      CleanPartsPrefix(ps, n + 1);
    } else {
      assert ps[..n] == ps;
    }
  }

  lemma {:induction false} CleanContentsPrefix(cs: seq<Json>, n: nat)
    requires n <= |cs| && CleanContents(cs[..n]).Err?
    ensures CleanContents(cs) == CleanContents(cs[..n])
    decreases |cs| - n
  {
    if n < |cs| {
      assert cs[..n + 1][..n] == cs[..n];
      CleanContentsPrefix(cs, n + 1);
    } else {
      assert cs[..n] == cs;
    }
  }

  /** Cleans a content's parts, in order. */
  method SanitizeParts(ps: seq<Json>) returns (r: Result<seq<Json>>)
    ensures r == CleanParts(ps)
  {
    var acc: seq<Json> := [];
    var i := 0;
    while i < |ps|
      invariant 0 <= i <= |ps|
      invariant CleanParts(ps[..i]) == Ok(acc)
    {
      assert ps[..i + 1][..i] == ps[..i];
      var q := CleanPart(ps[i]);
      if q.Err? {
        CleanPartsPrefix(ps, i + 1);
        return Err(q.error);
      }
      acc := acc + [q.value];
      i := i + 1;
    }
    assert ps[..|ps|] == ps;
    r := Ok(acc);
  }

  /** Cleans one content's parts. */
  method SanitizeContent(c: Json) returns (q: Result<Json>)
    ensures q == CleanContent(c)
  {
    if c.JNull? {
      q := Err(TypeError);
    } else if c.JObj? {
      var parts := Lookup(c.fields, "parts");
      if parts.Some? && Truthy(parts.value) && parts.value.JArr? {
        var items := SanitizeParts(parts.value.items);
        q := if items.Err? then Err(items.error) else Ok(JObj(Put(c.fields, "parts", JArr(items.value))));
      } else if parts.Some? && Truthy(parts.value) && !parts.value.JStr? {
        q := Err(TypeError);
      } else {
        q := Ok(c);
      }
    } else {
      q := Ok(c);
    }
  }

  /**
   * `_sanitizeForApiKey`: a body without truthy `contents` is returned as is; otherwise
   * each content's parts lose `functionResponse.id` and `functionResponse.response.id`.
   */
  method SanitizeForApiKey(body: Json) returns (r: Result<Json>)
    ensures r == Sanitized(body)
  {
    var contents := Get(body, "contents");
    if !Truthy(body) || contents.None? || !Truthy(contents.value) {
      return Ok(body);
    }
    if contents.value.JStr? {
      return Ok(body);
    }
    if !contents.value.JArr? {
      return Err(TypeError);
    }
    var cs := contents.value.items;
    var acc: seq<Json> := [];
    var i := 0;
    while i < |cs|
      invariant 0 <= i <= |cs|
      invariant CleanContents(cs[..i]) == Ok(acc)
    {
      assert cs[..i + 1][..i] == cs[..i];
      var q := SanitizeContent(cs[i]);
      if q.Err? {
        CleanContentsPrefix(cs, i + 1);
        return Err(q.error);
      }
      acc := acc + [q.value];
      i := i + 1;
    }
    assert cs[..|cs|] == cs;
    r := Ok(JObj(Put(body.fields, "contents", JArr(acc))));
  }

  /** A cleaned response is left alone by a second clean-up. */
  lemma {:induction false} CleanPartIdempotent(p: Json)
    requires CleanPart(p).Ok?
    ensures CleanPart(CleanPart(p).value) == CleanPart(p)
  {
    if p.JObj? {
      var fr := Lookup(p.fields, "functionResponse");
      if fr.Some? && Truthy(fr.value) {
        var c := CleanFunctionResponse(fr.value);
        var qf := Put(p.fields, "functionResponse", c);
        assert Lookup(qf, "functionResponse") == Some(c);
        assert CleanFunctionResponse(c) == c;
        PutSame(qf, "functionResponse", c);
      }
    }
  }

  lemma {:induction false} CleanPartsIdempotent(ps: seq<Json>)
    requires CleanParts(ps).Ok?
    ensures CleanParts(CleanParts(ps).value) == CleanParts(ps)
    decreases |ps|
  {
    if ps != [] {
      var a := CleanParts(ps[..|ps| - 1]).value;
      var q := CleanPart(ps[|ps| - 1]).value;
      CleanPartsIdempotent(ps[..|ps| - 1]);
      CleanPartIdempotent(ps[|ps| - 1]);
      var out := a + [q];
      assert out[..|out| - 1] == a;
    }
  }

  lemma {:induction false} CleanContentIdempotent(c: Json)
    requires CleanContent(c).Ok?
    ensures CleanContent(CleanContent(c).value) == CleanContent(c)
  {
    if c.JObj? {
      var parts := Lookup(c.fields, "parts");
      if parts.Some? && Truthy(parts.value) && parts.value.JArr? {
        var items' := CleanParts(parts.value.items).value;
        CleanPartsIdempotent(parts.value.items);
        var qf := Put(c.fields, "parts", JArr(items'));
        assert Lookup(qf, "parts") == Some(JArr(items'));
        if items' == [] {
          assert CleanParts(items') == Ok([]);
        }
        PutSame(qf, "parts", JArr(items'));
      }
    }
  }

  lemma {:induction false} CleanContentsIdempotent(cs: seq<Json>)
    requires CleanContents(cs).Ok?
    ensures CleanContents(CleanContents(cs).value) == CleanContents(cs)
    decreases |cs|
  {
    if cs != [] {
      var a := CleanContents(cs[..|cs| - 1]).value;
      var q := CleanContent(cs[|cs| - 1]).value;
      CleanContentsIdempotent(cs[..|cs| - 1]);
      CleanContentIdempotent(cs[|cs| - 1]);
      var out := a + [q];
      assert out[..|out| - 1] == a;
    }
  }

  /** Sanitising a sanitised body changes nothing. */
  lemma {:induction false} SanitizeIdempotent(body: Json)
    requires Sanitized(body).Ok?
    ensures Sanitized(Sanitized(body).value) == Sanitized(body)
  {
    var contents := Get(body, "contents");
    if Truthy(body) && contents.Some? && Truthy(contents.value) && contents.value.JArr? {
      var items' := CleanContents(contents.value.items).value;
      CleanContentsIdempotent(contents.value.items);
      var qf := Put(body.fields, "contents", JArr(items'));
      assert Lookup(qf, "contents") == Some(JArr(items'));
      if items' == [] {
        assert CleanContents(items') == Ok([]);
      }
      PutSame(qf, "contents", JArr(items'));
    }
  }

  /** Only `contents` can change at the top level, and a body without truthy `contents` comes back as is. */
  lemma {:induction false} SanitizeKeepsOtherKeys(body: Json)
    requires Sanitized(body).Ok?
    ensures forall k :: k != "contents" ==> Get(Sanitized(body).value, k) == Get(body, k)
    ensures Get(body, "contents").None? || !Truthy(Get(body, "contents").value) ==> Sanitized(body) == Ok(body)
  {
  }

  /** A part whose `functionResponse` is an object carries no truthy `id` in it or in its `response`. */
  predicate PartClean(p: Json) {
    var fr := Get(p, "functionResponse");
    fr.Some? && fr.value.JObj? ==> CleanResponse(fr.value)
  }

  predicate ContentClean(c: Json) {
    var parts := Get(c, "parts");
    parts.Some? && parts.value.JArr? ==> forall j :: 0 <= j < |parts.value.items| ==> PartClean(parts.value.items[j])
  }

  /** Every part of every content of a sanitised body is clean. */
  lemma {:induction false} SanitizedIsClean(body: Json)
    requires Sanitized(body).Ok?
    ensures var contents := Get(Sanitized(body).value, "contents");
      contents.Some? && contents.value.JArr? ==> forall i :: 0 <= i < |contents.value.items| ==> ContentClean(contents.value.items[i])
  {
    var contents := Get(body, "contents");
    if contents.Some? && contents.value.JArr? {
      var cs := contents.value.items;
      var out := CleanContents(cs).value;
      forall i | 0 <= i < |out| ensures ContentClean(out[i]) {
        CleanContentIsClean(cs[i]);
      }
    }
  }

  lemma {:induction false} CleanContentIsClean(c: Json)
    requires CleanContent(c).Ok?
    ensures ContentClean(CleanContent(c).value)
  {
    var parts := Get(c, "parts");
    if c.JObj? && parts.Some? && parts.value.JArr? {
      var ps := parts.value.items;
      var out := CleanParts(ps).value;
      forall j | 0 <= j < |out| ensures PartClean(out[j]) {
        CleanPartIsClean(ps[j]);
      }
    }
  }

  lemma {:induction false} CleanPartIsClean(p: Json)
    requires CleanPart(p).Ok?
    ensures PartClean(CleanPart(p).value)
  {
  }
}
