/**
 * The gateway's stream keys: `guild:<guildId>:<channelId>:<userId>` or
 * `call:<channelId>:<userId>`, split on `:` into a tagged record and built
 * back from one.
 */
module StreamKeys {
  import opened Wrappers

  const Separator: char := ':'

  /** The two kinds of stream the key names. */
  datatype KeyType = Guild | Call

  /** What a well-formed key holds; `guildId` is absent for a call. */
  datatype StreamKey = StreamKey(keyType: KeyType, channelId: string, guildId: Option<string>, userId: string)

  /** The two errors the parser throws. */
  datatype ParseError =
    | InvalidType(found: string)  // first segment is neither "guild" nor "call"
    | InvalidKey(key: string)     // too few segments, or an empty channel or user id

  function TypeName(t: KeyType): string {
    match t
    case Guild => "guild"
    case Call => "call"
  }

  /** How a template literal prints an optional string: `undefined` when absent. */
  function Interpolate(s: Option<string>): string {
    match s
    case Some(v) => v
    case None => "undefined"
  }

  // ---------------------------------------------------------------------------
  // Splitting on the separator, with JavaScript's `split(":")` semantics:
  // n separators give n + 1 segments, empty ones included.
  // ---------------------------------------------------------------------------

  function Split(s: string): (r: seq<string>)
    ensures |r| >= 1
  {
    if s == [] then [[]]
    else
      var rest := Split(s[1..]);
      if s[0] == Separator then [[]] + rest
      else [[s[0]] + rest[0]] + rest[1..]
  }

  /** The reference definition `split` inverts: segments joined by the separator. */
  function Join(parts: seq<string>): string
    requires |parts| >= 1
  {
    if |parts| == 1 then parts[0] else parts[0] + [Separator] + Join(parts[1..])
  }

  lemma {:induction false} JoinSplit(s: string)
    ensures Join(Split(s)) == s
    ensures forall i :: 0 <= i < |Split(s)| ==> Separator !in Split(s)[i]
  {
    if s != [] {
      JoinSplit(s[1..]);
      var rest := Split(s[1..]);
      if s[0] == Separator {
        assert Split(s) == [[]] + rest;
        assert Split(s)[1..] == rest;
      } else {
        var r := Split(s);
        assert r[0] == [s[0]] + rest[0];
        if |rest| == 1 {
          assert Join(r) == r[0];
        } else {
          assert r[1..] == rest[1..];
          assert Join(r) == r[0] + [Separator] + Join(rest[1..]);
          assert Join(rest) == rest[0] + [Separator] + Join(rest[1..]);
        }
        assert s == [s[0]] + s[1..];
      }
    }
  }

  /** A segment with no separator in it splits to itself. */
  lemma {:induction false} SplitSingle(a: string)
    requires Separator !in a
    ensures Split(a) == [a]
  {
    if a != [] {
      SplitSingle(a[1..]);
      assert [a[0]] + a[1..] == a;
    }
  }

  /** Splitting peels a separator-free first segment off. */
  lemma {:induction false} SplitCons(a: string, b: string)
    requires Separator !in a
    ensures Split(a + [Separator] + b) == [a] + Split(b)
  {
    if a == [] {
      assert a + [Separator] + b == [Separator] + b;
      assert ([Separator] + b)[1..] == b;
    } else {
      var s := a + [Separator] + b;
      assert s[1..] == a[1..] + [Separator] + b;
      SplitCons(a[1..], b);
      assert [a[0]] + a[1..] == a;
    }
  }

  // ---------------------------------------------------------------------------
  // parseStreamKey
  // ---------------------------------------------------------------------------

  /**
   * The parser's work on the segments of `key`: take the type, check the
   * segment count, then take guild id (guild keys only), channel id and user
   * id in that order; later segments are ignored.
   */
  function ParseSegments(key: string, segments: seq<string>): Result<StreamKey, ParseError> {
    // shift() of an empty array yields undefined, printed as "undefined"
    var typeText := if segments == [] then "undefined" else segments[0];
    var rest := if segments == [] then [] else segments[1..];
    if typeText != "guild" && typeText != "call" then
      Failure(InvalidType(typeText))
    else
      var keyType := if typeText == "guild" then Guild else Call;
      if (keyType == Guild && |rest| < 3) || (keyType == Call && |rest| < 2) then
        Failure(InvalidKey(key))
      else
        var guildId := if keyType == Guild then Some(rest[0]) else None;
        var ids := if keyType == Guild then rest[1..] else rest;
        var channelId := ids[0];
        var userId := ids[1];
        if channelId == "" || userId == "" then
          Failure(InvalidKey(key))
        else
          Success(StreamKey(keyType, channelId, guildId, userId))
  }

  /**
   * `parseStreamKey`: a key either fails with one of the two errors, or
   * yields non-empty, separator-free channel and user ids, with a guild id
   * exactly for guild keys.
   */
  function ParseStreamKey(key: string): (r: Result<StreamKey, ParseError>)
    ensures r.Failure? ==> r.error == InvalidType(Split(key)[0]) || r.error == InvalidKey(key)
    ensures r.Failure? && r.error.InvalidType? <==> Split(key)[0] != "guild" && Split(key)[0] != "call"
    ensures r.Success? ==>
      && r.value.channelId != "" && r.value.userId != ""
      && Separator !in r.value.channelId && Separator !in r.value.userId
      && (r.value.guildId.Some? <==> r.value.keyType == Guild)
      && (r.value.guildId.Some? ==> Separator !in r.value.guildId.value)
  {
    JoinSplit(key);
    ParseSegments(key, Split(key))
  }

  /** Number of segments after the type that a key of type `t` must carry. */
  function Required(t: KeyType): nat {
    match t
    case Guild => 3
    case Call => 2
  }

  lemma BadTypeRejected(key: string)
    requires Split(key)[0] != "guild" && Split(key)[0] != "call"
    ensures ParseStreamKey(key) == Failure(InvalidType(Split(key)[0]))
  {
  }

  lemma TooFewSegmentsRejected(key: string, t: KeyType)
    requires Split(key)[0] == TypeName(t)
    requires |Split(key)| - 1 < Required(t)
    ensures ParseStreamKey(key) == Failure(InvalidKey(key))
  {
  }

  /** Which segment each field comes from, and which empty ids are refused. */
  lemma FieldPositions(key: string, t: KeyType)
    requires Split(key)[0] == TypeName(t)
    requires |Split(key)| - 1 >= Required(t)
    ensures var segs := Split(key);
      var channelId := if t == Guild then segs[2] else segs[1];
      var userId := if t == Guild then segs[3] else segs[2];
      var guildId := if t == Guild then Some(segs[1]) else None;
      ParseStreamKey(key) ==
        if channelId == "" || userId == "" then Failure(InvalidKey(key))
        else Success(StreamKey(t, channelId, guildId, userId))
  {
  }

  /** An empty guild id is accepted as it is. */
  lemma EmptyGuildIdAccepted(c: string, u: string)
    requires Separator !in c && Separator !in u && c != "" && u != ""
    ensures ParseStreamKey("guild::" + c + [Separator] + u) == Success(StreamKey(Guild, c, Some(""), u))
  {
    var key := "guild::" + c + [Separator] + u;
    assert key == "guild" + [Separator] + ("" + [Separator] + (c + [Separator] + u));
    SplitCons("guild", "" + [Separator] + (c + [Separator] + u));
    SplitCons("", c + [Separator] + u);
    SplitCons(c, u);
    SplitSingle(u);
  }

  /** Segments after the required ones do not change the outcome. */
  lemma TrailingSegmentsIgnored(key: string, segments: seq<string>, extra: seq<string>)
    requires |segments| >= 1
    requires segments[0] == "guild" ==> |segments| >= 4
    requires segments[0] == "call" ==> |segments| >= 3
    ensures ParseSegments(key, segments + extra) == ParseSegments(key, segments)
  {
    var all := segments + extra;
    assert all[0] == segments[0];
    assert all[1..] == segments[1..] + extra;
  }

  // ---------------------------------------------------------------------------
  // generateStreamKey
  // ---------------------------------------------------------------------------

  /** The segments of a key: type, guild id (guild keys only, `undefined` when absent), channel id, user id. */
  function KeySegments(t: KeyType, guildId: Option<string>, channelId: string, userId: string): seq<string> {
    [TypeName(t)] + (if t == Guild then [Interpolate(guildId)] else []) + [channelId, userId]
  }

  /** The template literal: the segments, separated by `:`. */
  function GenerateStreamKey(t: KeyType, guildId: Option<string>, channelId: string, userId: string): string {
    Join(KeySegments(t, guildId, channelId, userId))
  }

  /**
   * The generated key is the source's template literal: the type, then
   * `:` and the interpolated guild id for guild keys only, then `:` channel
   * id and `:` user id.
   */
  lemma TemplateLiteral(t: KeyType, guildId: Option<string>, channelId: string, userId: string)
    ensures GenerateStreamKey(t, guildId, channelId, userId) ==
      TypeName(t) + (if t == Guild then [Separator] + Interpolate(guildId) else "")
      + [Separator] + channelId + [Separator] + userId
  {
    var tail := channelId + [Separator] + userId;
    var segs := KeySegments(t, guildId, channelId, userId);
    assert Join([userId]) == userId;
    assert Join([channelId, userId]) == tail by {
      assert [channelId, userId][1..] == [userId];
    }
    if t == Guild {
      var g := Interpolate(guildId);
      assert segs == [TypeName(t), g, channelId, userId];
      assert segs[1..] == [g, channelId, userId];
      assert segs[1..][1..] == [channelId, userId];
      assert Join(segs[1..]) == g + [Separator] + tail;
    } else {
      assert segs == [TypeName(t), channelId, userId];
      assert segs[1..] == [channelId, userId];
    }
  }

  /** Joining separator-free segments and splitting the result gives the segments back. */
  lemma {:induction false} SplitJoin(parts: seq<string>)
    requires |parts| >= 1
    requires forall i :: 0 <= i < |parts| ==> Separator !in parts[i]
    ensures Split(Join(parts)) == parts
  {
    if |parts| == 1 {
      SplitSingle(parts[0]);
    } else {
      SplitJoin(parts[1..]);
      SplitCons(parts[0], Join(parts[1..]));
      assert [parts[0]] + parts[1..] == parts;
    }
  }

  /** The segments a generated key splits into: a call key drops the guild id. */
  lemma GeneratedSegments(t: KeyType, guildId: Option<string>, channelId: string, userId: string)
    requires Separator !in Interpolate(guildId) && Separator !in channelId && Separator !in userId
    ensures Split(GenerateStreamKey(t, guildId, channelId, userId)) == KeySegments(t, guildId, channelId, userId)
  {
    var segs := KeySegments(t, guildId, channelId, userId);
    assert Separator !in TypeName(t);
    SplitJoin(segs);
  }

  /**
   * Parsing a generated key gives back what it was built from; a call key
   * comes back without a guild id whatever guild id it was given.
   */
  lemma GenerateThenParse(t: KeyType, guildId: Option<string>, channelId: string, userId: string)
    requires channelId != "" && userId != ""
    requires Separator !in channelId && Separator !in userId
    requires t == Guild ==> guildId.Some? && Separator !in guildId.value
    ensures ParseStreamKey(GenerateStreamKey(t, guildId, channelId, userId)) ==
      Success(StreamKey(t, channelId, if t == Guild then guildId else None, userId))
  {
    if t == Guild {
      GeneratedSegments(t, guildId, channelId, userId);
    } else {
      GeneratedSegments(t, None, channelId, userId);
      assert GenerateStreamKey(t, guildId, channelId, userId) == GenerateStreamKey(t, None, channelId, userId);
    }
  }

  /** A guild key built without a guild id carries the text "undefined" in its place. */
  lemma GuildKeyWithoutGuildId(channelId: string, userId: string)
    requires channelId != "" && userId != ""
    requires Separator !in channelId && Separator !in userId
    ensures ParseStreamKey(GenerateStreamKey(Guild, None, channelId, userId)) ==
      Success(StreamKey(Guild, channelId, Some("undefined"), userId))
  {
    GeneratedSegments(Guild, None, channelId, userId);
  }

  /** A key with exactly the required segments is rebuilt verbatim from what it parses to. */
  lemma ParseThenGenerate(key: string)
    requires ParseStreamKey(key).Success?
    requires |Split(key)| == 1 + Required(ParseStreamKey(key).value.keyType)
    ensures var k := ParseStreamKey(key).value;
      GenerateStreamKey(k.keyType, k.guildId, k.channelId, k.userId) == key
  {
    var segs := Split(key);
    var k := ParseStreamKey(key).value;
    assert segs[0] == TypeName(k.keyType);
    FieldPositions(key, k.keyType);
    JoinSplit(key);
    assert KeySegments(k.keyType, k.guildId, k.channelId, k.userId) == segs;
  }
}
