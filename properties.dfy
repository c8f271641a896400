/**
  What `Event::from` promises for each family of tags, read off the catalog:
  text fields are kept verbatim, flags follow the truthy-"1" rule, the
  `split_once` decoders panic on a missing comma, the fixed-count decoders
  panic on a wrong comma count, numbers are bounded by their Rust type, and
  `configreloaded` ignores its payload.
 */
module Properties {
  import opened RustStr
  import opened Events
  import opened Catalog
  import opened Agreement

  /** A tag listed with one text field keeps the whole payload, verbatim, and never panics. */
  lemma TextPayloadVerbatim(tag: string, data: string)
    requires DescriptorOf(tag).Some? && DescriptorOf(tag).value.layout == Whole
    requires DescriptorOf(tag).value.fields == [Text]
    ensures From(tag, data).Returns?
    ensures TagOf(From(tag, data).value) == tag && FieldsOf(From(tag, data).value) == [TextValue(data)]
  {
    FromFollowsCatalog(tag, data);
    DecodeOne(Text, data);
  }

  /**
    A tag listed with one flag field never panics and reads true exactly when
    the payload is "1": "true", "01" and the empty payload all read false.
   */
  lemma FlagPayload(tag: string, data: string)
    requires DescriptorOf(tag).Some? && DescriptorOf(tag).value.layout == Whole
    requires DescriptorOf(tag).value.fields == [Flag]
    ensures From(tag, data).Returns?
    ensures TagOf(From(tag, data).value) == tag && FieldsOf(From(tag, data).value) == [FlagValue(data == "1")]
  {
    FromFollowsCatalog(tag, data);
    DecodeOne(Flag, data);
    assert IsOne(data) <==> data == "1" by {
      if IsOne(data) {
        assert data == [data[0]];
      }
    }
  }

  /**
    A tag decoded with `split_once(",")` panics on the missing comma exactly
    when its payload has no comma; later failures are numeric ones.
   */
  lemma FirstCommaPanic(tag: string, data: string)
    requires DescriptorOf(tag).Some? && DescriptorOf(tag).value.layout == AtFirstComma
    ensures From(tag, data) == Panics(UnwrapNone) <==> ',' !in data
    ensures From(tag, data).Panics? && ',' in data ==> From(tag, data).reason.UnwrapParseError?
  {
    FromFollowsCatalog(tag, data);
    SplitFirstCommaSpec(data);
  }

  /**
    A fixed-count tag panics with "[Name::parse()]: Invalid data: " and the
    payload exactly when the payload does not hold one comma fewer than the
    record has fields; later failures are numeric ones.
   */
  lemma FieldCountPanic(tag: string, data: string)
    requires DescriptorOf(tag).Some? && DescriptorOf(tag).value.layout == CommaSeparated
    ensures var d := DescriptorOf(tag).value;
              From(tag, data) == Panics(InvalidData(InvalidDataMessage(d.name, data))) <==>
              multiset(data)[','] + 1 != |d.fields|
    ensures From(tag, data).Panics? && multiset(data)[','] + 1 == |DescriptorOf(tag).value.fields| ==>
              From(tag, data).reason.UnwrapParseError?
  {
    var d := DescriptorOf(tag).value;
    FromFollowsCatalog(tag, data);
    SplitExactSpec(d.name, data, |d.fields|);
  }

  /**
    A record made only of text fields keeps its payload whole: the payload
    written back for the decoded event is the payload read, and the decoder
    fails only on the shape of the payload.
   */
  lemma TextRecordVerbatim(tag: string, data: string)
    requires DescriptorOf(tag).Some? && DescriptorOf(tag).value.fields != []
    requires forall k :: 0 <= k < |DescriptorOf(tag).value.fields| ==> DescriptorOf(tag).value.fields[k] == Text
    ensures From(tag, data).Returns? <==> Pieces(DescriptorOf(tag).value, data).Returns?
    ensures From(tag, data).Returns? ==> Payload(From(tag, data).value) == data
  {
    var d := DescriptorOf(tag).value;
    FromFollowsCatalog(tag, data);
    if Pieces(d, data).Returns? {
      var texts := Pieces(d, data).value;
      DecodeFieldsPointwise(d.fields, texts);
      PiecesJoinBack(d, data);
      if From(tag, data).Returns? {
        var fields := FieldsOf(From(tag, data).value);
        assert Texts(fields) == texts by {
          forall k | 0 <= k < |texts|
            ensures Texts(fields)[k] == texts[k]
          {
            assert fields[k] == TextValue(texts[k]);
          }
        }
      }
    }
  }

  /**
    A workspace id in front of the first comma is accepted in the range of
    `u32` and makes the decoder panic above it, whatever follows the comma.
   */
  lemma LeadingIdRange(tag: string, n: nat, rest: string)
    requires DescriptorOf(tag).Some? && DescriptorOf(tag).value.layout == AtFirstComma
    requires DescriptorOf(tag).value.fields == [UInt32, Text]
    ensures From(tag, ToDecimal(n) + "," + rest).Returns? <==> n <= U32_MAX
  {
    var digits := ToDecimal(n);
    assert SplitFirstComma(digits + "," + rest) == Returns((digits, rest)) by {
      ToDecimalValue(n);
      SplitOnceAt(digits, ",", rest);
    }
    assert DecodeField(UInt32, digits).Returns? <==> n <= U32_MAX by {
      ParseUIntDecimal(false, 0, n, U32_MAX);
      assert Sign(false) + Zeros(0) + digits == digits;
    }
    DecodeTwo(UInt32, Text, digits, rest);
    FromFollowsCatalog(tag, digits + "," + rest);
  }

  /** The screencast owner after the first comma is accepted in the range of `u8` and makes the decoder panic above it. */
  lemma TrailingOwnerRange(tag: string, state: string, n: nat)
    requires DescriptorOf(tag).Some? && DescriptorOf(tag).value.layout == AtFirstComma
    requires DescriptorOf(tag).value.fields == [Flag, UInt8]
    requires ',' !in state
    ensures From(tag, state + "," + ToDecimal(n)).Returns? <==> n <= U8_MAX
  {
    var digits := ToDecimal(n);
    assert SplitFirstComma(state + "," + digits) == Returns((state, digits)) by {
      SplitOnceAt(state, ",", digits);
    }
    assert DecodeField(UInt8, digits).Returns? <==> n <= U8_MAX by {
      ParseUIntDecimal(false, 0, n, U8_MAX);
      assert Sign(false) + Zeros(0) + digits == digits;
    }
    DecodeTwo(Flag, UInt8, state, digits);
    FromFollowsCatalog(tag, state + "," + digits);
  }

  /** `configreloaded` carries nothing: any payload gives `ConfigReloaded`. */
  lemma ConfigReloadedIgnoresPayload(data: string)
    ensures From("configreloaded", data) == Returns(ConfigReloaded)
  {
  }
}
