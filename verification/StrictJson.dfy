// The strict recogniser every request and payload passes first: no null, no
// repeated key in one object, nothing nested deeper than level 12.
//
// It works on the token stream of a JSON decoder. Invalid stands for a place
// where the decoder reports a syntax error.
module StrictJson {
  import opened Wrappers

  const MAX_DEPTH := 12

  datatype Token = OpenObject | CloseObject | OpenArray | CloseArray
                 | StringToken(text: string) | NumberToken(number: string) | BoolToken(value: bool)
                 | NullToken | Invalid

  // ---- values, and what is asked of them ----

  datatype Json =
    | Null
    | Bool(value: bool)
    | Num(number: string)
    | Str(text: string)
    | Arr(items: seq<Json>)
    | Obj(fields: seq<Field>)

  datatype Field = Field(name: string, value: Json)

  function Tokens(v: Json): (ts: seq<Token>)
    decreases v, 1
  {
    match v
    case Null => [NullToken]
    case Bool(b) => [BoolToken(b)]
    case Num(n) => [NumberToken(n)]
    case Str(s) => [StringToken(s)]
    case Arr(items) => [OpenArray] + ItemTokens(items) + [CloseArray]
    case Obj(fields) => [OpenObject] + FieldTokens(fields) + [CloseObject]
  }

  function ItemTokens(items: seq<Json>): (ts: seq<Token>)
    decreases items, 0
  {
    if items == [] then [] else Tokens(items[0]) + ItemTokens(items[1..])
  }

  function FieldTokens(fields: seq<Field>): (ts: seq<Token>)
    decreases fields, 0
  {
    if fields == [] then []
    else [StringToken(fields[0].name)] + Tokens(fields[0].value) + FieldTokens(fields[1..])
  }

  predicate NoNull(v: Json) {
    match v
    case Null => false
    case Arr(items) => forall i :: 0 <= i < |items| ==> NoNull(items[i])
    case Obj(fields) => forall i :: 0 <= i < |fields| ==> NoNull(fields[i].value)
    case _ => true
  }

  predicate DistinctKeys(v: Json) {
    match v
    case Arr(items) => forall i :: 0 <= i < |items| ==> DistinctKeys(items[i])
    case Obj(fields) =>
      && (forall i, j :: 0 <= i < j < |fields| ==> fields[i].name != fields[j].name)
      && (forall i :: 0 <= i < |fields| ==> DistinctKeys(fields[i].value))
    case _ => true
  }

  // Every value inside `v` is at most `levels` levels below it.
  predicate Within(v: Json, levels: int) {
    && levels >= 0
    && match v
       case Arr(items) => forall i :: 0 <= i < |items| ==> Within(items[i], levels - 1)
       case Obj(fields) => forall i :: 0 <= i < |fields| ==> Within(fields[i].value, levels - 1)
       case _ => true
  }

  predicate Strict(v: Json, levels: int) {
    NoNull(v) && DistinctKeys(v) && Within(v, levels)
  }

  // ---- the scanner, as a function of the stream ----

  // What is left of the stream after one accepted value, or None. The count of
  // levels still allowed goes down where the program's depth goes up.
  function Scan(ts: seq<Token>, levels: int): (rest: Option<seq<Token>>)
    ensures rest.Some? ==> |rest.value| < |ts|
    decreases |ts|, 0
  {
    if levels < 0 || ts == [] then None
    else match ts[0]
      case StringToken(_) => Some(ts[1..])
      case NumberToken(_) => Some(ts[1..])
      case BoolToken(_) => Some(ts[1..])
      case OpenArray => ScanItems(ts[1..], levels - 1)
      case OpenObject => ScanFields(ts[1..], {}, levels - 1)
      case _ => None
  }

  function ScanItems(ts: seq<Token>, levels: int): (rest: Option<seq<Token>>)
    ensures rest.Some? ==> |rest.value| < |ts|
    decreases |ts|, 1
  {
    if ts == [] || ts[0] == CloseObject then None
    else if ts[0] == CloseArray then Some(ts[1..])
    else match Scan(ts, levels)
      case None => None
      case Some(after) => ScanItems(after, levels)
  }

  function ScanFields(ts: seq<Token>, keys: set<string>, levels: int): (rest: Option<seq<Token>>)
    ensures rest.Some? ==> |rest.value| < |ts|
    decreases |ts|, 1
  {
    if ts == [] || ts[0] == CloseArray then None
    else if ts[0] == CloseObject then Some(ts[1..])
    else if !ts[0].StringToken? || ts[0].text in keys then None
    else match Scan(ts[1..], levels)
      case None => None
      case Some(after) => ScanFields(after, keys + {ts[0].text}, levels)
  }

  // ---- on the tokens of a value, the answer is exactly Strict ----

  lemma TokensStart(v: Json, rest: seq<Token>)
    ensures |Tokens(v) + rest| > 0
    ensures (Tokens(v) + rest)[0] != CloseArray && (Tokens(v) + rest)[0] != CloseObject
  {
  }

  // The tokens of an array's contents start with the closing bracket exactly when
  // there are none, and with the first value otherwise.
  lemma ItemsSplit(xs: seq<Json>, a: seq<Token>)
    ensures var ts := ItemTokens(xs) + ([CloseArray] + a);
            && ts != [] && (ts[0] == CloseArray <==> xs == [])
            && if xs == [] then ts == [CloseArray] + a
               else ts == Tokens(xs[0]) + (ItemTokens(xs[1..]) + ([CloseArray] + a))
  {
    if xs == [] {
      assert ItemTokens(xs) + ([CloseArray] + a) == [CloseArray] + a;
    } else {
      var after := ItemTokens(xs[1..]) + ([CloseArray] + a);
      assert ItemTokens(xs) + ([CloseArray] + a) == Tokens(xs[0]) + after;
      TokensStart(xs[0], after);
    }
  }

  lemma FieldsSplit(xs: seq<Field>, a: seq<Token>)
    ensures var ts := FieldTokens(xs) + ([CloseObject] + a);
            && ts != [] && (ts[0] == CloseObject <==> xs == [])
            && if xs == [] then ts == [CloseObject] + a
               else ts[0] == StringToken(xs[0].name)
                    && ts[1..] == Tokens(xs[0].value) + (FieldTokens(xs[1..]) + ([CloseObject] + a))
  {
    if xs == [] {
      assert FieldTokens(xs) + ([CloseObject] + a) == [CloseObject] + a;
    } else {
      var after := FieldTokens(xs[1..]) + ([CloseObject] + a);
      assert FieldTokens(xs) + ([CloseObject] + a) == [StringToken(xs[0].name)] + (Tokens(xs[0].value) + after);
    }
  }

  predicate ItemsStrict(items: seq<Json>, levels: int) {
    forall i :: 0 <= i < |items| ==> Strict(items[i], levels)
  }

  predicate FieldsStrict(fields: seq<Field>, keys: set<string>, levels: int) {
    && (forall i :: 0 <= i < |fields| ==> fields[i].name !in keys && Strict(fields[i].value, levels))
    && (forall i, j :: 0 <= i < j < |fields| ==> fields[i].name != fields[j].name)
  }

  lemma ArrayStrict(items: seq<Json>, levels: int)
    ensures Strict(Arr(items), levels) <==> levels >= 0 && ItemsStrict(items, levels - 1)
  {
  }

  lemma ObjectStrict(fields: seq<Field>, levels: int)
    ensures Strict(Obj(fields), levels) <==> levels >= 0 && FieldsStrict(fields, {}, levels - 1)
  {
  }

  lemma {:induction false} ScanExact(v: Json, rest: seq<Token>, levels: int)
    ensures Scan(Tokens(v) + rest, levels) == if Strict(v, levels) then Some(rest) else None
    decreases v, 1
  {
    var ts := Tokens(v) + rest;
    assert ts[0] == Tokens(v)[0];
    match v
    case Arr(items) =>
      assert ts[1..] == ItemTokens(items) + ([CloseArray] + rest);
      ItemsExact(items, rest, levels - 1);
      ArrayStrict(items, levels);
    case Obj(fields) =>
      assert ts[1..] == FieldTokens(fields) + ([CloseObject] + rest);
      FieldsExact(fields, {}, rest, levels - 1);
      ObjectStrict(fields, levels);
    case _ =>
      assert ts[1..] == rest;
  }

  lemma ItemsStrictStep(items: seq<Json>, levels: int)
    requires items != []
    ensures ItemsStrict(items, levels) <==> Strict(items[0], levels) && ItemsStrict(items[1..], levels)
  {
    assert forall i :: 1 <= i < |items| ==> items[i] == items[1..][i - 1];
  }

  lemma {:induction false} ItemsExact(items: seq<Json>, rest: seq<Token>, levels: int)
    ensures ScanItems(ItemTokens(items) + ([CloseArray] + rest), levels)
            == if ItemsStrict(items, levels) then Some(rest) else None
    decreases items, 0
  {
    ItemsSplit(items, rest);
    if items == [] {
      assert ([CloseArray] + rest)[1..] == rest;
    } else {
      var after := ItemTokens(items[1..]) + ([CloseArray] + rest);
      TokensStart(items[0], after);
      ScanExact(items[0], after, levels);
      ItemsExact(items[1..], rest, levels);
      ItemsStrictStep(items, levels);
    }
  }

  lemma FieldsStrictStep(fields: seq<Field>, keys: set<string>, levels: int)
    requires fields != []
    ensures FieldsStrict(fields, keys, levels) <==>
            && fields[0].name !in keys && Strict(fields[0].value, levels)
            && FieldsStrict(fields[1..], keys + {fields[0].name}, levels)
  {
  }

  lemma {:induction false} FieldsExact(fields: seq<Field>, keys: set<string>, rest: seq<Token>, levels: int)
    ensures ScanFields(FieldTokens(fields) + ([CloseObject] + rest), keys, levels)
            == if FieldsStrict(fields, keys, levels) then Some(rest) else None
    decreases fields, 0
  {
    FieldsSplit(fields, rest);
    if fields == [] {
      assert ([CloseObject] + rest)[1..] == rest;
    } else {
      ScanExact(fields[0].value, FieldTokens(fields[1..]) + ([CloseObject] + rest), levels);
      FieldsExact(fields[1..], keys + {fields[0].name}, rest, levels);
      FieldsStrictStep(fields, keys, levels);
    }
  }

  // ---- whatever is accepted is the tokens of a strict value ----

  lemma {:induction false} ScanSound(ts: seq<Token>, levels: int) returns (v: Json)
    requires Scan(ts, levels).Some?
    ensures Strict(v, levels) && ts == Tokens(v) + Scan(ts, levels).value
    decreases |ts|, 0
  {
    assert ts == [ts[0]] + ts[1..];
    match ts[0]
    case StringToken(s) => v := Str(s);
    case NumberToken(n) => v := Num(n);
    case BoolToken(b) => v := Bool(b);
    case OpenArray =>
      var items := ItemsSound(ts[1..], levels - 1);
      v := Arr(items);
      ArrayStrict(items, levels);
    case OpenObject =>
      var fields := FieldsSound(ts[1..], {}, levels - 1);
      v := Obj(fields);
      ObjectStrict(fields, levels);
  }

  lemma {:induction false} ItemsSound(ts: seq<Token>, levels: int) returns (items: seq<Json>)
    requires ScanItems(ts, levels).Some?
    ensures ItemsStrict(items, levels)
    ensures ts == ItemTokens(items) + ([CloseArray] + ScanItems(ts, levels).value)
    decreases |ts|, 1
  {
    if ts[0] == CloseArray {
      items := [];
    } else {
      var v := ScanSound(ts, levels);
      var more := ItemsSound(Scan(ts, levels).value, levels);
      items := [v] + more;
      assert items[1..] == more;
      ItemsStrictStep(items, levels);
    }
  }

  lemma {:induction false} FieldsSound(ts: seq<Token>, keys: set<string>, levels: int)
    returns (fields: seq<Field>)
    requires ScanFields(ts, keys, levels).Some?
    ensures FieldsStrict(fields, keys, levels)
    ensures ts == FieldTokens(fields) + ([CloseObject] + ScanFields(ts, keys, levels).value)
    decreases |ts|, 1
  {
    if ts[0] == CloseObject {
      fields := [];
    } else {
      var v := ScanSound(ts[1..], levels);
      var more := FieldsSound(Scan(ts[1..], levels).value, keys + {ts[0].text}, levels);
      fields := [Field(ts[0].text, v)] + more;
      assert fields[1..] == more;
      FieldsStrictStep(fields, keys, levels);
    }
  }

  // A whole message is accepted exactly when it is the tokens of one strict
  // value and nothing more.
  lemma MessageAccepted(ts: seq<Token>)
    ensures Scan(ts, 12) == Some([]) <==> exists v :: Strict(v, 12) && ts == Tokens(v)
  {
    if Scan(ts, MAX_DEPTH) == Some([]) {
      var v := ScanSound(ts, MAX_DEPTH);
      assert ts == Tokens(v);
    }
    if v :| Strict(v, MAX_DEPTH) && ts == Tokens(v) {
      ScanExact(v, [], MAX_DEPTH);
      assert Tokens(v) + [] == ts;
    }
  }

  // ---- a stream of tokens has one reading ----

  // No stream begins with the tokens of two values, strict or not.
  lemma {:induction false} ValueUnique(v: Json, w: Json, a: seq<Token>, b: seq<Token>)
    requires Tokens(v) + a == Tokens(w) + b
    ensures v == w && a == b
    decreases v, 1
  {
    assert (Tokens(v) + a)[0] == Tokens(v)[0] && (Tokens(w) + b)[0] == Tokens(w)[0];
    match v
    case Arr(items) =>
      assert (Tokens(v) + a)[1..] == ItemTokens(items) + ([CloseArray] + a);
      assert (Tokens(w) + b)[1..] == ItemTokens(w.items) + ([CloseArray] + b);
      ItemsUnique(items, w.items, a, b);
    case Obj(fields) =>
      assert (Tokens(v) + a)[1..] == FieldTokens(fields) + ([CloseObject] + a);
      assert (Tokens(w) + b)[1..] == FieldTokens(w.fields) + ([CloseObject] + b);
      FieldsUnique(fields, w.fields, a, b);
    case _ =>
      assert (Tokens(v) + a)[1..] == a && (Tokens(w) + b)[1..] == b;
  }

  lemma {:induction false} ItemsUnique(xs: seq<Json>, ys: seq<Json>, a: seq<Token>, b: seq<Token>)
    requires ItemTokens(xs) + ([CloseArray] + a) == ItemTokens(ys) + ([CloseArray] + b)
    ensures xs == ys && a == b
    decreases xs, 0
  {
    ItemsSplit(xs, a);
    ItemsSplit(ys, b);
    if xs != [] && ys != [] {
      var u, v := ItemTokens(xs[1..]) + ([CloseArray] + a), ItemTokens(ys[1..]) + ([CloseArray] + b);
      ValueUnique(xs[0], ys[0], u, v);
      ItemsUnique(xs[1..], ys[1..], a, b);
      assert xs == [xs[0]] + xs[1..] && ys == [ys[0]] + ys[1..];
    } else {
      assert ([CloseArray] + a)[1..] == a && ([CloseArray] + b)[1..] == b;
    }
  }

  lemma {:induction false} FieldsUnique(xs: seq<Field>, ys: seq<Field>, a: seq<Token>, b: seq<Token>)
    requires FieldTokens(xs) + ([CloseObject] + a) == FieldTokens(ys) + ([CloseObject] + b)
    ensures xs == ys && a == b
    decreases xs, 0
  {
    FieldsSplit(xs, a);
    FieldsSplit(ys, b);
    if xs != [] && ys != [] {
      var u, v := FieldTokens(xs[1..]) + ([CloseObject] + a), FieldTokens(ys[1..]) + ([CloseObject] + b);
      ValueUnique(xs[0].value, ys[0].value, u, v);
      FieldsUnique(xs[1..], ys[1..], a, b);
      assert xs == [xs[0]] + xs[1..] && ys == [ys[0]] + ys[1..];
    } else {
      assert ([CloseObject] + a)[1..] == a && ([CloseObject] + b)[1..] == b;
    }
  }

  // ---- the decoder and the scanner that advances it ----

  // Where the decoder is inside each container that is still open.
  datatype Frame = InArray | AtKey | AtValue

  // Where no element follows, a scan of a container's inside accepts its own
  // closing delimiter and nothing else.
  lemma InsideEnds(braces: bool, ts: seq<Token>, keys: set<string>, levels: int)
    requires ts == [] || ts[0] == CloseArray || ts[0] == CloseObject
    ensures ScanInside(braces, ts, keys, levels)
            == if ts != [] && ts[0] == (if braces then CloseObject else CloseArray) then Some(ts[1..]) else None
  {
  }

  // What the loop of UniqueValue still has to accept inside a container.
  function ScanInside(braces: bool, ts: seq<Token>, keys: set<string>, levels: int): (r: Option<seq<Token>>) {
    if braces then ScanFields(ts, keys, levels) else ScanItems(ts, levels)
  }

  class Decoder {
    const tokens: seq<Token>
    var position: nat
    var frames: seq<Frame>

    constructor (tokens: seq<Token>)
      ensures Valid() && this.tokens == tokens && position == 0 && frames == []
    {
      this.tokens, position, frames := tokens, 0, [];
    }

    predicate Valid()
      reads this
    {
      position <= |tokens|
    }

    function Rest(): (rest: seq<Token>)
      requires Valid()
      reads this
    {
      tokens[position..]
    }

    predicate WantsValue()
      reads this
    {
      frames == [] || frames[|frames| - 1] != AtKey
    }

    // The frames once a value has been read in the innermost container.
    function Completed(frames: seq<Frame>): (completed: seq<Frame>) {
      if frames != [] && frames[|frames| - 1] == AtValue then frames[..|frames| - 1] + [AtKey] else frames
    }

    // Whether the decoder refuses to go on: at the end, at a syntax error, at
    // anything but a string or a closing brace where a key belongs, and at a
    // closing delimiter that does not match the innermost open one.
    predicate Refuses()
      requires Valid()
      reads this
    {
      || position == |tokens|
      || tokens[position] == Invalid
      || (tokens[position] == CloseArray && (frames == [] || frames[|frames| - 1] != InArray))
      || (tokens[position] == CloseObject && (frames == [] || frames[|frames| - 1] != AtKey))
      || (!WantsValue() && tokens[position] != CloseObject && !tokens[position].StringToken?)
    }

    // The frames after one more token.
    function Entered(token: Token): (entered: seq<Frame>)
      reads this
    {
      if token == CloseArray || token == CloseObject then
        if frames == [] then [] else frames[..|frames| - 1]
      else if !WantsValue() then frames[..|frames| - 1] + [AtValue]
      else if token == OpenArray then Completed(frames) + [InArray]
      else if token == OpenObject then Completed(frames) + [AtKey]
      else Completed(frames)
    }

    method Next() returns (token: Option<Token>)
      requires Valid()
      modifies this
      ensures Valid()
      ensures token.None? <==> old(Refuses())
      ensures token.Some? ==>
                && token.value == old(Rest())[0] && Rest() == old(Rest())[1..]
                && frames == old(Entered(if Refuses() then Invalid else tokens[position]))
    {
      if position == |tokens| {
        return None;
      }
      var next := tokens[position];
      var inner := if frames == [] then None else Some(frames[|frames| - 1]);
      if next == Invalid {
        return None;
      } else if next == CloseArray || next == CloseObject {
        if inner != Some(if next == CloseArray then InArray else AtKey) {
          return None;
        }
        frames := frames[..|frames| - 1];
      } else if inner == Some(AtKey) {
        if !next.StringToken? {
          return None;
        }
        frames := frames[..|frames| - 1] + [AtValue];
      } else {
        frames := Completed(frames);
        if next == OpenArray {
          frames := frames + [InArray];
        } else if next == OpenObject {
          frames := frames + [AtKey];
        }
      }
      position := position + 1;
      return Some(next);
    }

    // Whether another element follows in the current container.
    method More() returns (more: bool)
      requires Valid()
      ensures more <==> Rest() != [] && Rest()[0] != CloseArray && Rest()[0] != CloseObject
    {
      more := position < |tokens| && tokens[position] != CloseArray && tokens[position] != CloseObject;
    }

    // A value comes next: at the top, after a key, or after More in an array.
    predicate ExpectsValue()
      requires Valid()
      reads this
    {
      || frames == []
      || frames[|frames| - 1] == AtValue
      || (frames[|frames| - 1] == InArray && Rest() != [] && Rest()[0] != CloseArray && Rest()[0] != CloseObject)
    }

    // uniqueValue: consumes exactly one strict value, or fails.
    method UniqueValue(depth: nat) returns (ok: bool)
      requires Valid() && ExpectsValue()
      modifies this
      ensures Valid()
      ensures ok <==> Scan(old(Rest()), MAX_DEPTH - depth).Some?
      ensures ok ==> Rest() == Scan(old(Rest()), MAX_DEPTH - depth).value && frames == Completed(old(frames))
      decreases |tokens| - position, 0
    {
      if depth > MAX_DEPTH {
        return false;
      }
      var token := Next();
      if token.None? {
        return false;
      }
      assert old(Rest())[0] == token.value && Rest() == old(Rest())[1..];
      if token.value != OpenArray && token.value != OpenObject {
        return token.value != NullToken;
      }
      assert Scan(old(Rest()), MAX_DEPTH - depth)
             == ScanInside(token.value == OpenObject, Rest(), {}, MAX_DEPTH - (depth + 1));
      ok := Contents(token.value == OpenObject, depth + 1);
    }

    // The rest of a container whose opening delimiter has been read: its elements,
    // with the keys seen so far, and its closing delimiter.
    method Contents(braces: bool, depth: nat) returns (ok: bool)
      requires Valid() && frames != [] && frames[|frames| - 1] == if braces then AtKey else InArray
      modifies this
      ensures Valid()
      ensures ok <==> ScanInside(braces, old(Rest()), {}, MAX_DEPTH - depth).Some?
      ensures ok ==>
                && Rest() == ScanInside(braces, old(Rest()), {}, MAX_DEPTH - depth).value
                && frames == old(frames)[..|old(frames)| - 1]
      decreases |tokens| - position, 2
    {
      ghost var inside, inner := Rest(), frames;
      var keys: set<string> := {};
      var more := More();
      while more
        invariant Valid() && |Rest()| <= |inside| && frames == inner
        invariant more <==> Rest() != [] && Rest()[0] != CloseArray && Rest()[0] != CloseObject
        invariant ScanInside(braces, inside, {}, MAX_DEPTH - depth)
                  == ScanInside(braces, Rest(), keys, MAX_DEPTH - depth)
        decreases |tokens| - position
      {
        var accepted;
        accepted, keys := Element(braces, keys, depth);
        if !accepted {
          return false;
        }
        more := More();
      }
      InsideEnds(braces, Rest(), keys, MAX_DEPTH - depth);
      var close := Next();
      return close.Some?;
    }

    // One turn of the loop: in an object a new key first, then the value.
    method Element(braces: bool, keys: set<string>, depth: nat) returns (ok: bool, keys': set<string>)
      requires Valid() && Rest() != [] && Rest()[0] != CloseArray && Rest()[0] != CloseObject
      requires frames != [] && frames[|frames| - 1] == if braces then AtKey else InArray
      modifies this
      ensures Valid()
      ensures ok ==> && |Rest()| < old(|Rest()|) && frames == old(frames)
                     && ScanInside(braces, old(Rest()), keys, MAX_DEPTH - depth)
                        == ScanInside(braces, Rest(), keys', MAX_DEPTH - depth)
      ensures !ok ==> ScanInside(braces, old(Rest()), keys, MAX_DEPTH - depth).None?
      decreases |tokens| - position, 1
    {
      keys' := keys;
      if braces {
        var key := Next();
        if key.None? || !key.value.StringToken? || key.value.text in keys {
          return false, keys;
        }
        keys' := keys + {key.value.text};
        assert Rest() == old(Rest())[1..] && old(Rest())[0] == key.value;
      }
      ok := UniqueValue(depth);
    }
  }

  // The gate Decode puts before decoding: one strict value, then the end.
  method Recognise(tokens: seq<Token>) returns (ok: bool)
    ensures ok <==> exists v :: Strict(v, 12) && tokens == Tokens(v)
  {
    MessageAccepted(tokens);
    var decoder := new Decoder(tokens);
    assert decoder.Rest() == tokens;
    ok := decoder.UniqueValue(0);
    ok := ok && decoder.position == |decoder.tokens|;
  }
}
