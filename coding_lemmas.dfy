/**
  Properties of the parameter encoder, stated over the spec functions of
  module Coding (which the encoder's methods are proved to compute).
 */
module CodingLemmas {
  import opened Foundation
  import opened CustomEvent
  import opened Coding

  // ---------------------------------------------------------------------
  // Keyed writes.
  // ---------------------------------------------------------------------

  /** Writes made one after another compose. */
  lemma {:induction false} ApplyWritesAppend(ws1: seq<KeyedWrite>, ws2: seq<KeyedWrite>, r: map<string, Value>)
    ensures ApplyWrites(ws1 + ws2, r) == ApplyWrites(ws2, ApplyWrites(ws1, r))
    decreases |ws2|
  {
    if ws2 == [] {
      assert ws1 + ws2 == ws1;
    } else {
      var n := |ws2| - 1;
      assert (ws1 + ws2)[..|ws1 + ws2| - 1] == ws1 + ws2[..n];
      assert (ws1 + ws2)[|ws1 + ws2| - 1] == ws2[n];
      ApplyWritesAppend(ws1, ws2[..n], r);
    }
  }

  /**
    A keyed write stores `box(value)` under its key, overwriting any earlier
    value there, and no other key changes.
   */
  lemma KeyedWriteStores(ws: seq<KeyedWrite>, r: map<string, Value>, key: string, x: Encodable)
    ensures ApplyWrites(ws + [Field(key, Some(x))], r) == ApplyWrites(ws, r)[key := Box(x)]
    ensures forall k | k != key :: (k in ApplyWrites(ws + [Field(key, Some(x))], r) <==> k in ApplyWrites(ws, r))
  {
  }

  /** A nil field leaves the result as it was. */
  lemma NilFieldLeavesResult(ws: seq<KeyedWrite>, r: map<string, Value>, key: string)
    ensures ApplyWrites(ws + [Field(key, None)], r) == ApplyWrites(ws, r)
  {
  }

  /** Of two writes to the same key, the later one wins. */
  lemma LaterWriteOverwrites(r: map<string, Value>, key: string, x: Encodable, y: Encodable)
    ensures ApplyWrites([Field(key, Some(x)), Field(key, Some(y))], r) == r[key := Box(y)]
  {
    KeyedWriteStores([Field(key, Some(x))], r, key, y);
    KeyedWriteStores([], r, key, x);
    assert [Field(key, Some(x))] == [] + [Field(key, Some(x))];
  }

  // ---------------------------------------------------------------------
  // Exactly the written keys change.
  // ---------------------------------------------------------------------

  /**
    Encoding `v` adds exactly the keys `v` writes, and keeps the value of
    every other key that was already there.
   */
  lemma {:induction false} EncodeIntoFrame(v: Encodable, r: map<string, Value>)
    ensures EncodeInto(v, r).Keys == r.Keys + WrittenKeys(v)
    ensures forall k | k in r && k !in WrittenKeys(v) :: EncodeInto(v, r)[k] == r[k]
    decreases v, 0
  {
    match v
    case ERecord(ws) => ApplyWritesFrame(ws, r);
    case _ =>
  }

  lemma {:induction false} ApplyWritesFrame(ws: seq<KeyedWrite>, r: map<string, Value>)
    ensures ApplyWrites(ws, r).Keys == r.Keys + WrittenKeysOf(ws)
    ensures forall k | k in r && k !in WrittenKeysOf(ws) :: ApplyWrites(ws, r)[k] == r[k]
    decreases ws, 3
  {
    if ws != [] {
      var n := |ws| - 1;
      ApplyWritesFrame(ws[..n], r);
      ApplyWriteFrame(ws[n], ApplyWrites(ws[..n], r));
    }
  }

  lemma {:induction false} ApplyWriteFrame(w: KeyedWrite, r: map<string, Value>)
    ensures ApplyWrite(w, r).Keys == r.Keys + WriteKeys(w)
    ensures forall k | k in r && k !in WriteKeys(w) :: ApplyWrite(w, r)[k] == r[k]
    decreases w, 2
  {
    match w
    case Super(p) => EncodeIntoFrame(p, r);
    case _ =>
  }

  /** `encode` returns exactly the keys the value's writes put there. */
  lemma EncodedKeys(v: Encodable)
    ensures Encoded(v).Keys == WrittenKeys(v)
  {
    EncodeIntoFrame(v, map[]);
  }

  /**
    The last write to a key decides its value, even when writes made through
    the super encoder come after it, as long as none of them writes that key.
   */
  lemma {:induction false} LastWriteWins(ws: seq<KeyedWrite>, r: map<string, Value>, i: int, key: string, x: Encodable)
    requires 0 <= i < |ws| && ws[i] == Field(key, Some(x))
    requires forall j | i < j < |ws| :: key !in WriteKeys(ws[j])
    ensures key in ApplyWrites(ws, r) && ApplyWrites(ws, r)[key] == Box(x)
    decreases |ws|
  {
    var n := |ws| - 1;
    if i < n {
      LastWriteWins(ws[..n], r, i, key, x);
      ApplyWriteFrame(ws[n], ApplyWrites(ws[..n], r));
    }
  }

  /** The keys a record of plain fields writes: those given a present value. */
  lemma {:induction false} FieldKeys(ws: seq<KeyedWrite>)
    requires forall i | 0 <= i < |ws| :: ws[i].Field?
    ensures forall k :: k in WrittenKeysOf(ws) <==> exists i | 0 <= i < |ws| :: ws[i].key == k && ws[i].value.Some?
    decreases |ws|
  {
    if ws != [] {
      var n := |ws| - 1;
      FieldKeys(ws[..n]);
      assert WrittenKeysOf(ws) == WrittenKeysOf(ws[..n]) + WriteKeys(ws[n]);
      forall k | k in WrittenKeysOf(ws)
        ensures exists i | 0 <= i < |ws| :: ws[i].key == k && ws[i].value.Some?
      {
        if k in WrittenKeysOf(ws[..n]) {
          var i :| 0 <= i < n && ws[..n][i].key == k && ws[..n][i].value.Some?;
          assert ws[i] == ws[..n][i];
        } else {
          assert ws[n].key == k && ws[n].value.Some?;
        }
      }
      forall k | exists i | 0 <= i < |ws| :: ws[i].key == k && ws[i].value.Some?
        ensures k in WrittenKeysOf(ws)
      {
        var i :| 0 <= i < |ws| && ws[i].key == k && ws[i].value.Some?;
        if i < n {
          assert ws[..n][i] == ws[i];
        }
      }
    }
  }

  /**
    The parameter map of a record of plain fields holds exactly the fields
    that have a value: an absent or nil field is never present.
   */
  lemma RecordKeys(ws: seq<KeyedWrite>, key: string)
    requires forall i | 0 <= i < |ws| :: ws[i].Field?
    ensures key in Encoded(ERecord(ws)) <==> exists i | 0 <= i < |ws| :: ws[i].key == key && ws[i].value.Some?
  {
    EncodedKeys(ERecord(ws));
    FieldKeys(ws);
  }

  // ---------------------------------------------------------------------
  // Boxing.
  // ---------------------------------------------------------------------

  /** Strings, doubles, ints and bools box to their own variant with no coercion. */
  lemma BoxVariantExact(v: Encodable)
    ensures Box(v).StringValue? <==> v.EString?
    ensures Box(v).DoubleValue? <==> v.EDouble?
    ensures Box(v).IntValue? <==> v.EInt?
    ensures Box(v).BoolValue? <==> v.EBool?
    ensures Box(v).ArrayValue? <==> v.EArray?
    ensures Box(v).DictionaryValue? <==> v.EDictionary? || v.ERecord? || v.ESingleValue?
    ensures v.EString? ==> Box(v).s == v.s
    ensures v.EDouble? ==> Box(v).d == v.d
    ensures v.EInt? ==> Box(v).i == v.i
    ensures v.EBool? ==> Box(v).b == v.b
  {
  }

  /** Arrays box element-wise, keeping length and order. */
  lemma BoxArray(es: seq<Encodable>)
    ensures |Box(EArray(es)).elements| == |es|
    ensures forall i | 0 <= i < |es| :: Box(EArray(es)).elements[i] == Box(es[i])
  {
  }

  /** Dictionaries box value-wise, keeping the key set. */
  lemma BoxDictionary(m: map<string, Encodable>)
    ensures Box(EDictionary(m)).entries.Keys == m.Keys
    ensures forall k | k in m :: Box(EDictionary(m)).entries[k] == Box(m[k])
  {
  }

  /**
    A nested record is encoded on its own: the parent gains only the one key,
    holding the dictionary of the nested record's own parameter map.
   */
  lemma NestedRecordIsolated(ws: seq<KeyedWrite>, r: map<string, Value>, key: string, inner: seq<KeyedWrite>)
    ensures ApplyWrites(ws + [Field(key, Some(ERecord(inner)))], r)
         == ApplyWrites(ws, r)[key := DictionaryValue(Encoded(ERecord(inner)))]
    ensures Box(ERecord(inner)).entries.Keys == WrittenKeysOf(inner)
  {
    KeyedWriteStores(ws, r, key, ERecord(inner));
    EncodedKeys(ERecord(inner));
  }

  /** Writes through the super encoder land in the same result as the record's own. */
  lemma SuperSharesResult(ws1: seq<KeyedWrite>, p: Encodable, ws2: seq<KeyedWrite>, r: map<string, Value>)
    ensures ApplyWrites(ws1 + [Super(p)] + ws2, r) == ApplyWrites(ws2, EncodeInto(p, ApplyWrites(ws1, r)))
  {
    ApplyWritesAppend(ws1 + [Super(p)], ws2, r);
    assert (ws1 + [Super(p)])[..|ws1|] == ws1;
  }

  // ---------------------------------------------------------------------
  // The empty coding path.
  // ---------------------------------------------------------------------

  /** A bare top-level scalar or single-value type encodes to the empty map, not to an error. */
  lemma TopLevelSingleValueEncodesEmpty(v: Encodable)
    requires v.EString? || v.EDouble? || v.EInt? || v.EBool? || v.ESingleValue?
    ensures Supported(v) <==> !v.ESingleValue? || BoxSupported(v.inner)
    ensures Encoded(v) == map[]
  {
  }

  /** A nested value that encodes through a single-value container boxes to an empty dictionary. */
  lemma SingleValueBoxesToEmptyDictionary(inner: Encodable)
    ensures Box(ESingleValue(inner)) == DictionaryValue(map[])
  {
  }

  /** A top-level array asks for an unkeyed container, which the encoder does not support. */
  lemma TopLevelArrayUnsupported(es: seq<Encodable>)
    ensures !Supported(EArray(es))
    ensures BoxSupported(EArray(es)) <==> forall i | 0 <= i < |es| :: BoxSupported(es[i])
  {
  }

  // ---------------------------------------------------------------------
  // Worked examples.
  // ---------------------------------------------------------------------

  /** The `PostPublished` parameters of the custom-event test. */
  function PostPublishedParameters(rating: Double): Encodable
  {
    ERecord([
      Field("title", Some(EString("Hello"))),
      Field("likes", Some(EInt(3))),
      Field("tags", Some(EArray([EString("foo"), EString("bar")]))),
      Field("rating", Some(EDouble(rating)))
    ])
  }

  lemma PostPublishedEncoding(rating: Double)
    ensures Supported(PostPublishedParameters(rating))
    ensures Encoded(PostPublishedParameters(rating)) == map[
      "title" := StringValue("Hello"),
      "likes" := IntValue(3),
      "tags" := ArrayValue([StringValue("foo"), StringValue("bar")]),
      "rating" := DoubleValue(rating)]
  {
    var ws := PostPublishedParameters(rating).writes;
    var tags := ArrayValue([StringValue("foo"), StringValue("bar")]);
    assert Box(EArray([EString("foo"), EString("bar")])) == tags;
    assert ws[..4] == ws && ws[..4][..3] == ws[..3] && ws[..3][..2] == ws[..2] && ws[..2][..1] == ws[..1];
    assert ws[..1][..0] == [];
    assert ApplyWrites(ws[..1], map[]) == map["title" := StringValue("Hello")];
    assert ApplyWrites(ws[..2], map[]) == map["title" := StringValue("Hello"), "likes" := IntValue(3)];
    assert ApplyWrites(ws[..3], map[]) == map["title" := StringValue("Hello"), "likes" := IntValue(3), "tags" := tags];
    assert Encoded(PostPublishedParameters(rating)) == ApplyWrites(ws, map[]);
    assert ApplyWrites(ws, map[]) == ApplyWrite(ws[3], ApplyWrites(ws[..3], map[]));
    assert ws[3] == Field("rating", Some(EDouble(rating)));
    assert ApplyWrite(ws[3], ApplyWrites(ws[..3], map[])) == ApplyWrites(ws[..3], map[])["rating" := DoubleValue(rating)];
  }

  /** Nesting to depth three: each level becomes a dictionary of its own fields. */
  lemma NestedEncoding()
    ensures Encoded(ERecord([
        Field("outer", Some(ERecord([
          Field("middle", Some(ERecord([Field("inner", Some(EBool(true)))]))),
          Field("skipped", None)])))]))
      == map["outer" := DictionaryValue(map[
           "middle" := DictionaryValue(map["inner" := BoolValue(true)])])]
  {
    var inner := [Field("inner", Some(EBool(true)))];
    assert inner[..0] == [];
    var innerMap := map["inner" := BoolValue(true)];
    assert Box(ERecord(inner)) == DictionaryValue(innerMap);
    var middle := [Field("middle", Some(ERecord(inner))), Field("skipped", None)];
    assert middle[..1][..0] == [];
    assert ApplyWrites(middle[..1], map[]) == map["middle" := DictionaryValue(innerMap)];
    var middleMap := map["middle" := DictionaryValue(innerMap)];
    assert ApplyWrites(middle, map[]) == ApplyWrite(middle[1], ApplyWrites(middle[..1], map[]));
    assert EncodeInto(ERecord(middle), map[]) == middleMap;
    assert Box(ERecord(middle)) == DictionaryValue(middleMap);
    var outer := [Field("outer", Some(ERecord(middle)))];
    assert outer[..0] == [];
  }
}
