/// `PageInfo`: the pagination cursor of a connection-shaped response.
module PageInfoModel {
  import opened Codable

  datatype PageInfo = PageInfo(
    endCursor: Option<string>,
    hasNextPage: bool,
    hasPrevPage: bool,
    startCursor: Option<string>)

  /// A cursor field as `decodeIfPresent(String.self)` reads it.
  function Cursor(o: map<string, Json>, k: string): Option<string> {
    if HoldsString(o, k) then Some(o[k].s) else None
  }

  /// `PageInfo.init(from:)`: both cursors optional (absent or null is nil, but
  /// a non-string fails), both flags required booleans.
  function DecodePageInfo(j: Json): (r: Result<PageInfo>)
    ensures r.Ok? <==>
      j.JObj? && ReadableIfPresent(j.fields, "end_cursor", AsString) &&
      Readable(j.fields, "has_next_page", AsBool) && Readable(j.fields, "has_previous_page", AsBool) &&
      ReadableIfPresent(j.fields, "start_cursor", AsString)
    ensures j.JObj? && ReadableIfPresent(j.fields, "end_cursor", AsString) && "has_next_page" !in j.fields ==>
              r == Err(KeyNotFound("has_next_page"))
    ensures r.Ok? ==> r.value.endCursor == Cursor(j.fields, "end_cursor")
    ensures r.Ok? ==> r.value.startCursor == Cursor(j.fields, "start_cursor")
    ensures r.Ok? ==> j.fields["has_next_page"] == JBool(r.value.hasNextPage)
    ensures r.Ok? ==> j.fields["has_previous_page"] == JBool(r.value.hasPrevPage)
  {
    var o :- Container(j);
    var endCursor :- IfPresent(o, "end_cursor", AsString);
    var hasNext :- Required(o, "has_next_page", AsBool);
    var hasPrev :- Required(o, "has_previous_page", AsBool);
    var startCursor :- IfPresent(o, "start_cursor", AsString);
    Ok(PageInfo(endCursor, hasNext, hasPrev, startCursor))
  }

  /// `PageInfo.encode(to:)`: nil cursors are omitted, both flags always written.
  function EncodePageInfo(p: PageInfo): (j: Json)
    ensures j.JObj?
    ensures j.fields.Keys == {"has_next_page", "has_previous_page"}
                             + (if p.endCursor.Some? then {"end_cursor"} else {})
                             + (if p.startCursor.Some? then {"start_cursor"} else {})
  {
    var flags := map["has_next_page" := JBool(p.hasNextPage), "has_previous_page" := JBool(p.hasPrevPage)];
    var withEnd := if p.endCursor.Some? then flags["end_cursor" := JStr(p.endCursor.value)] else flags;
    JObj(if p.startCursor.Some? then withEnd["start_cursor" := JStr(p.startCursor.value)] else withEnd)
  }

  lemma PageInfoRoundTrip(p: PageInfo)
    ensures DecodePageInfo(EncodePageInfo(p)) == Ok(p)
  {
  }

  /// `==`: field by field.
  predicate Equal(a: PageInfo, b: PageInfo) {
    a.endCursor == b.endCursor && a.hasNextPage == b.hasNextPage &&
    a.hasPrevPage == b.hasPrevPage && a.startCursor == b.startCursor
  }

  /// The hand-written `==` agrees with structural equality: it compares every
  /// field and nothing else.
  lemma EqualIsIdentity(a: PageInfo, b: PageInfo)
    ensures Equal(a, b) <==> a == b
  {
  }

  /// What `hash(into:)` feeds the hasher, in order.
  datatype HashInput = OptionalText(text: Option<string>) | Flag(flag: bool)

  function HashInputs(p: PageInfo): seq<HashInput> {
    [OptionalText(p.endCursor), Flag(p.hasNextPage), Flag(p.hasPrevPage), OptionalText(p.startCursor)]
  }

  /// The hash value, for whatever function the hasher finally applies.
  function Hash(p: PageInfo, finalize: seq<HashInput> -> int): int {
    finalize(HashInputs(p))
  }

  /// Equal values hash equally, whatever the hasher.
  lemma EqualHashesEqual(a: PageInfo, b: PageInfo, finalize: seq<HashInput> -> int)
    requires Equal(a, b)
    ensures Hash(a, finalize) == Hash(b, finalize)
  {
  }

  /// And the hasher is fed exactly what `==` compares: values that feed it the
  /// same inputs are equal.
  lemma HashInputsDetermineValue(a: PageInfo, b: PageInfo)
    requires HashInputs(a) == HashInputs(b)
    ensures Equal(a, b)
  {
    assert HashInputs(a)[0] == HashInputs(b)[0];
    assert HashInputs(a)[1] == HashInputs(b)[1];
    assert HashInputs(a)[2] == HashInputs(b)[2];
    assert HashInputs(a)[3] == HashInputs(b)[3];
  }
}
