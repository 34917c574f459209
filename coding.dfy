/**
  `ParametersEncoder`: a hand-written encoder that walks a keyed record and
  builds the `[String: Event.Custom.Value]` parameter map of a custom event.

  The host language's `Encodable` protocol and its dynamic casts are replaced
  by a closed datatype of encodable shapes. Each shape stands for what its
  `encode(to:)` does with the encoder it is handed: a scalar or a
  single-value type writes through the single-value container, an array asks
  for an unkeyed container, and a string-keyed dictionary or a record writes
  through the keyed container.

  The spec functions `Box` and `EncodeInto` say what the encoder computes;
  the classes `CustomValueEncoder` and `KeyedContainer` are the encoder
  itself, whose `result` map the keyed writes update in place, and they are
  proved to compute exactly what the spec functions say.
 */
module Coding {
  import opened Foundation
  import opened CustomEvent

  /** An encodable value, classified by what its `encode(to:)` does. */
  datatype Encodable =
    | EString(s: string)
    | EDouble(d: Double)
    | EInt(i: Int64)
    | EBool(b: bool)
    | EArray(elements: seq<Encodable>)
    | EDictionary(entries: map<string, Encodable>)
      /** A record: the keyed-container calls its `encode(to:)` makes, in order. */
    | ERecord(writes: seq<KeyedWrite>)
      /** A type such as `Date` that encodes one value through `singleValueContainer()`. */
    | ESingleValue(inner: Encodable)

  /** One call a record's `encode(to:)` makes on its keyed container. */
  datatype KeyedWrite =
      /**
        `encode(_:forKey:)` for a present value, or `encodeNil(forKey:)` (and
        the synthesized `encodeIfPresent` of a nil optional, which calls
        nothing) for `None`.
       */
    | Field(key: string, value: Option<Encodable>)
      /** `parent.encode(to: container.superEncoder())`, with or without a key. */
    | Super(parent: Encodable)

  // ---------------------------------------------------------------------
  // Unsupported shapes. `unkeyedContainer()` and the keyed container's
  // nested containers stop the program; among the shapes above only an
  // array encoding itself reaches them. These predicates say that no such
  // call is reached, and they are the preconditions of the encoder's methods.
  // ---------------------------------------------------------------------

  /** `v.encode(to: encoder)` reaches no `fatalError`. */
  predicate Supported(v: Encodable)
    decreases v, 0
  {
    match v
    case EArray(_) => false
    case EDictionary(m) => forall k | k in m :: BoxSupported(m[k])
    case ERecord(ws) => forall i | 0 <= i < |ws| :: WriteSupported(ws[i])
    case ESingleValue(inner) => BoxSupported(inner)
    case _ => true
  }

  /** `box(v)` reaches no `fatalError`. */
  predicate BoxSupported(v: Encodable)
    decreases v, 1
  {
    match v
    case EArray(es) => forall i | 0 <= i < |es| :: BoxSupported(es[i])
    case EDictionary(m) => forall k | k in m :: BoxSupported(m[k])
    case ERecord(_) => Supported(v)
    case ESingleValue(_) => Supported(v)
    case _ => true
  }

  predicate WriteSupported(w: KeyedWrite)
    decreases w, 2
  {
    match w
    case Field(_, None) => true
    case Field(_, Some(x)) => BoxSupported(x)
    case Super(p) => Supported(p)
  }

  // ---------------------------------------------------------------------
  // What the encoder computes.
  // ---------------------------------------------------------------------

  /**
    `box`: the type cascade String, Double, Int, Bool, array, string-keyed
    dictionary; anything else is encoded into a fresh encoder and becomes
    the dictionary of that encoder's result.
   */
  function Box(v: Encodable): Value
    decreases v, 1
  {
    match v
    case EString(s) => StringValue(s)
    case EDouble(d) => DoubleValue(d)
    case EInt(n) => IntValue(n)
    case EBool(b) => BoolValue(b)
    case EArray(es) => ArrayValue(seq(|es|, i requires 0 <= i < |es| => Box(es[i])))
    case EDictionary(m) => DictionaryValue(map k | k in m :: Box(m[k]))
    case ERecord(_) => DictionaryValue(EncodeInto(v, map[]))
    case ESingleValue(_) => DictionaryValue(EncodeInto(v, map[]))
  }

  /**
    The encoder's `result` after `v.encode(to:)` ran on an encoder whose
    result was `result`. Single-value writes change nothing because the
    coding path is always empty; an array traps in the code (see `Supported`).
   */
  function EncodeInto(v: Encodable, result: map<string, Value>): map<string, Value>
    decreases v, 0
  {
    match v
    case EDictionary(m) => result + map k | k in m :: Box(m[k])
    case ERecord(ws) => ApplyWrites(ws, result)
    case _ => result
  }

  /** The result after the writes `ws`, made in order. */
  function ApplyWrites(ws: seq<KeyedWrite>, result: map<string, Value>): map<string, Value>
    decreases ws, 3
  {
    if ws == [] then result
    else ApplyWrite(ws[|ws| - 1], ApplyWrites(ws[..|ws| - 1], result))
  }

  function ApplyWrite(w: KeyedWrite, result: map<string, Value>): map<string, Value>
    decreases w, 2
  {
    match w
    case Field(_, None) => result
    case Field(key, Some(x)) => result[key := Box(x)]
    case Super(p) => EncodeInto(p, result)
  }

  /** `ParametersEncoder().encode(v)`: a fresh, empty result on every call. */
  function Encoded(v: Encodable): map<string, Value>
  {
    EncodeInto(v, map[])
  }

  // ---------------------------------------------------------------------
  // An independent account of which keys a value writes.
  // ---------------------------------------------------------------------

  /** The keys that `v.encode(to:)` stores a value under. */
  function WrittenKeys(v: Encodable): set<string>
    decreases v, 0
  {
    match v
    case EDictionary(m) => m.Keys
    case ERecord(ws) => WrittenKeysOf(ws)
    case _ => {}
  }

  function WrittenKeysOf(ws: seq<KeyedWrite>): set<string>
    decreases ws, 3
  {
    if ws == [] then {} else WrittenKeysOf(ws[..|ws| - 1]) + WriteKeys(ws[|ws| - 1])
  }

  function WriteKeys(w: KeyedWrite): set<string>
    decreases w, 2
  {
    match w
    case Field(_, None) => {}
    case Field(key, Some(_)) => {key}
    case Super(p) => WrittenKeys(p)
  }

  /** The boxed entries of `m` for the keys in `keys`. */
  function BoxedEntries(m: map<string, Encodable>, keys: set<string>): map<string, Value>
    requires keys <= m.Keys
  {
    map k | k in keys :: Box(m[k])
  }

  /** Writing one more boxed entry extends the boxed key set by that key. */
  lemma BoxedEntriesInsert(r: map<string, Value>, m: map<string, Encodable>, done: set<string>, key: string)
    requires done <= m.Keys && key in m
    ensures (r + BoxedEntries(m, done))[key := Box(m[key])] == r + BoxedEntries(m, done + {key})
  {
  }

  // ---------------------------------------------------------------------
  // The encoder.
  // ---------------------------------------------------------------------

  /** `_CustomValueEncoder`, which is also its own single-value container. */
  class CustomValueEncoder {
    var result: map<string, Value>
    var codingPath: seq<string>

    /** Nothing ever extends the coding path. */
    ghost predicate Valid()
      reads this
    {
      codingPath == []
    }

    constructor ()
      ensures Valid() && result == map[]
    {
      result := map[];
      codingPath := [];
    }

    /** `container(keyedBy:)`: a keyed container writing into this encoder. */
    method Container() returns (c: KeyedContainer)
      ensures fresh(c) && c.encoder == this
    {
      c := new KeyedContainer(this);
    }

    /** `setValue`: stores under the last coding-path key, if there is one. */
    method SetValue(value: Value)
      modifies this
      ensures codingPath == old(codingPath)
      ensures old(codingPath) == [] ==> result == old(result)
      ensures old(codingPath) != [] ==> result == old(result)[old(codingPath)[|old(codingPath)| - 1] := value]
    {
      if codingPath != [] {
        var lastCodingPath := codingPath[|codingPath| - 1];
        result := result[lastCodingPath := value];
      }
    }

    /** Single-value `encode(_:)` for an arbitrary encodable value. */
    method EncodeSingle(value: Encodable)
      requires Valid() && BoxSupported(value)
      modifies this
      ensures Valid() && result == old(result)
      decreases value, 3
    {
      var boxed := BoxValue(value);
      SetValue(boxed);
    }

    /** `box`, with the dictionary case filled by a loop as in the code. */
    method BoxValue(v: Encodable) returns (r: Value)
      requires BoxSupported(v)
      ensures r == Box(v)
      decreases v, 2
    {
      match v {
        case EString(s) => r := StringValue(s);
        case EDouble(d) => r := DoubleValue(d);
        case EInt(n) => r := IntValue(n);
        case EBool(b) => r := BoolValue(b);
        case EArray(es) =>
          var boxed: seq<Value> := [];
          for i := 0 to |es|
            invariant |boxed| == i
            invariant forall j | 0 <= j < i :: boxed[j] == Box(es[j])
          {
            var element := BoxValue(es[i]);
            boxed := boxed + [element];
          }
          r := ArrayValue(boxed);
        case EDictionary(m) =>
          var dictionaryResult: map<string, Value> := map[];
          var remaining := m.Keys;
          while remaining != {}
            invariant remaining <= m.Keys
            invariant dictionaryResult == map k | k in m.Keys - remaining :: Box(m[k])
            decreases remaining
          {
            var key :| key in remaining;
            var nested := BoxValue(m[key]);
            dictionaryResult := dictionaryResult[key := nested];
            remaining := remaining - {key};
          }
          r := DictionaryValue(dictionaryResult);
        case _ =>
          var encoder := new CustomValueEncoder();
          encoder.EncodeValue(v);
          r := DictionaryValue(encoder.result);
      }
    }

    /** `v.encode(to: self)`. */
    method EncodeValue(v: Encodable)
      requires Valid() && Supported(v)
      modifies this
      ensures Valid() && result == EncodeInto(v, old(result))
      decreases v, 1
    {
      match v {
        case EString(s) => SetValue(StringValue(s));
        case EDouble(d) => SetValue(DoubleValue(d));
        case EInt(n) => SetValue(IntValue(n));
        case EBool(b) => SetValue(BoolValue(b));
        case ESingleValue(inner) => EncodeSingle(inner);
        case EDictionary(m) => EncodeDictionary(m);
        case ERecord(ws) => EncodeRecord(ws);
      }
    }

    /** A string-keyed dictionary's `encode(to:)`: one keyed write per entry. */
    method EncodeDictionary(m: map<string, Encodable>)
      requires Valid() && forall k | k in m :: BoxSupported(m[k])
      modifies this
      ensures Valid() && result == EncodeInto(EDictionary(m), old(result))
      decreases EDictionary(m), 0
    {
      var container := Container();
      var remaining := m.Keys;
      ghost var done: set<string> := {};
      while remaining != {}
        invariant Valid() && done <= m.Keys && remaining == m.Keys - done
        invariant result == old(result) + BoxedEntries(m, done)
        decreases remaining
      {
        var key :| key in remaining;
        BoxedEntriesInsert(old(result), m, done, key);
        container.Encode(m[key], key);
        remaining := remaining - {key};
        done := done + {key};
      }
      assert done == m.Keys;
    }

    /** A record's `encode(to:)`: its keyed writes, in order, on one container. */
    method EncodeRecord(ws: seq<KeyedWrite>)
      requires Valid() && forall i | 0 <= i < |ws| :: WriteSupported(ws[i])
      modifies this
      ensures Valid() && result == ApplyWrites(ws, old(result))
      decreases ws, 3
    {
      var container := Container();
      for i := 0 to |ws|
        invariant Valid()
        invariant result == ApplyWrites(ws[..i], old(result))
      {
        assert ws[..i + 1][..i] == ws[..i];
        EncodeWrite(container, ws[i]);
      }
      assert ws[..|ws|] == ws;
    }

    /** One statement of a record's `encode(to:)`, made on `container`. */
    method EncodeWrite(container: KeyedContainer, w: KeyedWrite)
      requires Valid() && container.encoder == this && WriteSupported(w)
      modifies this
      ensures Valid() && result == ApplyWrite(w, old(result))
      decreases w, 3
    {
      match w {
        case Field(key, None) => container.EncodeNil(key);
        case Field(key, Some(x)) => container.Encode(x, key);
        case Super(p) =>
          var encoder := container.SuperEncoder();
          encoder.EncodeValue(p);
      }
    }
  }

  /** `CustomKeyedEncodingContainer`: writes through to its encoder's result. */
  class KeyedContainer {
    const encoder: CustomValueEncoder

    constructor (encoder: CustomValueEncoder)
      ensures this.encoder == encoder
    {
      this.encoder := encoder;
    }

    /** `encode(_:forKey:)`: stores `box(value)` under the key; no other key changes. */
    method Encode(value: Encodable, key: string)
      requires encoder.Valid() && BoxSupported(value)
      modifies encoder
      ensures encoder.Valid() && encoder.result == old(encoder.result)[key := Box(value)]
      decreases value, 3
    {
      var boxed := encoder.BoxValue(value);
      encoder.result := encoder.result[key := boxed];
    }

    /** `encodeNil(forKey:)`: nil values are not added. */
    method EncodeNil(key: string)
      ensures encoder.result == old(encoder.result)
    {
    }

    /** `superEncoder()`: the parent encoder itself, sharing its result. */
    method SuperEncoder() returns (e: CustomValueEncoder)
      ensures e == encoder
    {
      e := encoder;
    }

    /** `superEncoder(forKey:)`: the key is ignored. */
    method SuperEncoderForKey(key: string) returns (e: CustomValueEncoder)
      ensures e == encoder
    {
      e := encoder;
    }
  }

  /** `ParametersEncoder.encode`: a fresh encoder per call, returning its result. */
  method EncodeParameters(v: Encodable) returns (r: map<string, Value>)
    requires Supported(v)
    ensures r == Encoded(v)
  {
    var encoder := new CustomValueEncoder();
    encoder.EncodeValue(v);
    r := encoder.result;
  }
}
