/** Pagination tokens of internal/repository/dynamodb/run_repo.go: tagged attribute values, printed as JSON and coded
    in base64; and listings that follow them. The JSON codec is a parameter. */
module Tokens {
  import opened Base64
  import opened Options

  /** S is text, N a number in text form, B raw bytes; Other stands for the kinds no key has. */
  datatype Attribute = S(text: string) | N(number: string) | B(bytes: seq<Byte>) | Other

  type Key = map<string, Attribute>

  /** encoding/json on a map of strings. */
  datatype Json = Json(marshal: map<string, string> -> seq<Byte>, unmarshal: seq<Byte> -> Option<map<string, string>>)

  /** What is printed reads back as what it was, and is never empty. */
  ghost predicate Faithful(json: Json) {
    forall m :: json.marshal(m) != [] && json.unmarshal(json.marshal(m)) == Some(m)
  }

  // ---------- one attribute ----------

  function Tag(a: Attribute): Option<string> {
    match a
    case S(text) => Some("S:" + text)
    case N(number) => Some("N:" + number)
    case B(bytes) => Some("B:" + Encode(bytes))
    case Other => None
  }

  function Untag(s: string): Option<Attribute> {
    if |s| < 2 || s[1] != ':' then None
    else if s[0] == 'S' then Some(S(s[2..]))
    else if s[0] == 'N' then Some(N(s[2..]))
    else if s[0] == 'B' then
      var bytes :- Decode(s[2..]);
      Some(B(bytes))
    else None
  }

  lemma TagRoundTrip(a: Attribute)
    requires !a.Other?
    ensures Tag(a).Some? && Untag(Tag(a).value) == Some(a)
  {
    hide Encode, Decode;
    match a
    case S(text) => assert ("S:" + text)[2..] == text;
    case N(number) => assert ("N:" + number)[2..] == number;
    case B(bytes) =>
      assert ("B:" + Encode(bytes))[2..] == Encode(bytes);
      Base64RoundTrip(bytes);
  }

  /** Which texts are tagged values, and of which. */
  lemma UntagExactly(s: string)
    ensures Untag(s) == None <==> !("S:" <= s) && !("N:" <= s) && !("B:" <= s && Decode(s[2..]).Some?)
    ensures "S:" <= s ==> Untag(s) == Some(S(s[2..]))
    ensures "N:" <= s ==> Untag(s) == Some(N(s[2..]))
    ensures "B:" <= s && Decode(s[2..]).Some? ==> Untag(s) == Some(B(Decode(s[2..]).value))
  {
    hide Decode;
    assert forall tag: string :: |tag| == 2 ==> (tag <= s <==> |s| >= 2 && s[0] == tag[0] && s[1] == tag[1]);
  }

  // ---------- whole keys ----------

  predicate Plain(key: Key) { forall name :: name in key ==> !key[name].Other? }

  function Tags(key: Key): (tags: map<string, string>)
    requires Plain(key)
  {
    map name | name in key :: (match key[name] case Other => "" case _ => Tag(key[name]).value)
  }

  /** What a token decodes to: an error, the start of the listing, or the key to go on after. */
  datatype Cursor = Malformed | Start | After(key: Key)

  /** No key gives no token. An attribute of an unsupported kind is an error. */
  function TokenOf(key: Option<Key>, json: Json): Option<string> {
    match key
    case None => Some("")
    case Some(k) => if Plain(k) then Some(Encode(json.marshal(Tags(k)))) else None
  }

  function Untagged(tags: map<string, string>): Option<Key> {
    if forall name :: name in tags ==> Untag(tags[name]).Some?
    then Some(map name | name in tags && Untag(tags[name]).Some? :: Untag(tags[name]).value)
    else None
  }

  function CursorOf(token: string, json: Json): Cursor {
    if token == "" then Start
    else match Decode(token)
      case None => Malformed
      case Some(data) =>
        match json.unmarshal(data)
        case None => Malformed
        case Some(tags) => if Untagged(tags).Some? then After(Untagged(tags).value) else Malformed
  }

  /** Only the empty token starts the listing; a token is refused exactly if it is no base64, its bytes are no JSON map
      of strings, or one of these is no tagged value; else it stands for the key of the values in it. */
  lemma CursorExactly(token: string, json: Json)
    ensures CursorOf(token, json) == Start <==> token == ""
    ensures var data := Decode(token);
      CursorOf(token, json) == Malformed <==>
        token != "" && (data == None || json.unmarshal(data.value) == None
                        || exists name :: name in json.unmarshal(data.value).value
                             && Untag(json.unmarshal(data.value).value[name]) == None)
    ensures CursorOf(token, json).After? ==>
      && Decode(token).Some? && json.unmarshal(Decode(token).value).Some?
      && var tags, key := json.unmarshal(Decode(token).value).value, CursorOf(token, json).key;
         key.Keys == tags.Keys && forall name :: name in key ==> Untag(tags[name]) == Some(key[name])
  {
    hide Decode, Untag;
  }

  lemma TagsRoundTrip(key: Key)
    requires Plain(key)
    ensures Untagged(Tags(key)) == Some(key)
  {
    forall name | name in key ensures Untag(Tags(key)[name]) == Some(key[name]) { TagRoundTrip(key[name]); }
    hide Untag, Tag;
    assert Untagged(Tags(key)).value == key;
  }

  /** Encoding a key of text, number and binary attributes never fails, the token is never the empty one, and decoding
      it gives the key back. */
  lemma TokenRoundTrip(key: Key, json: Json)
    requires Plain(key) && Faithful(json)
    ensures TokenOf(Some(key), json).Some? && TokenOf(Some(key), json).value != ""
    ensures CursorOf(TokenOf(Some(key), json).value, json) == After(key)
  {
    hide Encode, Decode, Tags, Untagged;
    var data := json.marshal(Tags(key));
    EncodedSymbols(data);
    Base64RoundTrip(data);
    TagsRoundTrip(key);
  }

  /** Unsupported attributes are the only failure. */
  lemma EncodingFailsIff(key: Option<Key>, json: Json)
    ensures TokenOf(key, json) == None <==> key.Some? && exists name :: name in key.value && key.value[name].Other?
  {
  }

  // ---------- the loops ----------

  /** encodeNextToken: the attributes are visited in any order, the first unsupported one ends it. */
  method EncodeNextToken(lastEvaluatedKey: Option<Key>, json: Json) returns (r: Option<string>)
    ensures r == TokenOf(lastEvaluatedKey, json)
  {
    hide Encode;
    if lastEvaluatedKey == None {
      return Some("");
    }
    var key := lastEvaluatedKey.value;
    var simpleMap: map<string, string> := map[];
    var rest := key.Keys;
    while rest != {}
      invariant rest <= key.Keys && simpleMap.Keys == key.Keys - rest
      invariant forall name :: name in simpleMap ==> Tag(key[name]) == Some(simpleMap[name])
      decreases |rest|
    {
      var name :| name in rest;
      rest := rest - {name};
      var tag := Tag(key[name]);
      if tag == None {
        return None;
      }
      simpleMap := simpleMap[name := tag.value];
    }
    assert Plain(key) && simpleMap == Tags(key);
    return Some(Encode(json.marshal(simpleMap)));
  }

  /** decodeNextToken: likewise; which malformed attribute is met first does not matter. */
  method DecodeNextToken(nextToken: string, json: Json) returns (r: Cursor)
    ensures r == CursorOf(nextToken, json)
  {
    hide Decode;
    if nextToken == "" {
      return Start;
    }
    var jsonData := Decode(nextToken);
    if jsonData == None {
      return Malformed;
    }
    var simpleMap := json.unmarshal(jsonData.value);
    if simpleMap == None {
      return Malformed;
    }
    var tags := simpleMap.value;
    var result: Key := map[];
    var rest := tags.Keys;
    while rest != {}
      invariant rest <= tags.Keys && result.Keys == tags.Keys - rest
      invariant forall name :: name in result ==> Untag(tags[name]) == Some(result[name])
      decreases |rest|
    {
      var name :| name in rest;
      rest := rest - {name};
      var attribute := Untag(tags[name]);
      if attribute == None {
        return Malformed;
      }
      result := result[name := attribute.value];
    }
    assert result == Untagged(tags).value;
    return After(result);
  }

  // ---------- listings ----------

  datatype Row = Row(key: Key, item: string)

  /** An index in its order: every row has a key of its own. */
  ghost predicate IndexOk(rows: seq<Row>) {
    && (forall i :: 0 <= i < |rows| ==> Plain(rows[i].key))
    && (forall i, j :: 0 <= i < j < |rows| ==> rows[i].key != rows[j].key)
  }

  /** Where a listing goes on behind a key. */
  function PositionAfter(rows: seq<Row>, key: Key): (k: nat)
    ensures k <= |rows|
  {
    if rows == [] then 0 else if rows[0].key == key then 1 else 1 + PositionAfter(rows[1..], key)
  }

  lemma {:induction false} PositionOf(rows: seq<Row>, i: nat)
    requires i < |rows| && forall j, k :: 0 <= j < k < |rows| ==> rows[j].key != rows[k].key
    ensures PositionAfter(rows, rows[i].key) == i + 1
  {
    if i > 0 {
      assert rows[0].key != rows[i].key;
      PositionOf(rows[1..], i - 1);
    }
  }

  datatype Page = Page(items: seq<string>, nextToken: string)

  function ItemsOf(rows: seq<Row>): (items: seq<string>)
    ensures |items| == |rows| && forall i :: 0 <= i < |rows| ==> items[i] == rows[i].item
  {
    if rows == [] then [] else ItemsOf(rows[..|rows| - 1]) + [rows[|rows| - 1].item]
  }

  function Behind(rows: seq<Row>, cursor: Cursor): (k: nat)
    requires cursor != Malformed
    ensures k <= |rows|
  {
    if cursor == Start then 0 else PositionAfter(rows, cursor.key)
  }

  function Smaller(m: nat, n: nat): nat { if m < n then m else n }

  /** The page of the next rows, up to the limit. Its token leads on behind the last of them exactly if rows are left,
      or the limit was reached and the store marks that; otherwise it is empty. */
  ghost predicate PageOk(rows: seq<Row>, from: nat, limit: nat, marks: bool, page: Page, read: nat, json: Json) {
    && from <= |rows| && read == Smaller(|rows| - from, limit)
    && page.items == ItemsOf(rows[from..from + read])
    && (page.nextToken != "" <==> read > 0 && (from + read < |rows| || (marks && read == limit)))
    && (page.nextToken != "" ==> CursorOf(page.nextToken, json) == After(rows[from + read - 1].key))
  }

  /** One query of up to `limit` rows. The store hands out a last key whenever rows are left, and may hand one out
      when the last row was just read (`marks`). */
  method ReadPage(rows: seq<Row>, limit: nat, nextToken: string, marks: bool, json: Json)
      returns (r: Option<Page>, read: nat)
    requires IndexOk(rows) && Faithful(json) && limit > 0
    ensures r == None <==> CursorOf(nextToken, json) == Malformed
    ensures r.Some? ==> PageOk(rows, Behind(rows, CursorOf(nextToken, json)), limit, marks, r.value, read, json)
  {
    hide CursorOf, TokenOf, Behind, Faithful, ItemsOf;
    read := 0;
    var cursor := DecodeNextToken(nextToken, json);
    if cursor == Malformed {
      return None, read;
    }
    var from := Behind(rows, cursor);
    read := Smaller(|rows| - from, limit);
    var items := ReadRows(rows, from, from + read);
    var last := if read > 0 && (from + read < |rows| || (marks && read == limit))
      then Some(rows[from + read - 1].key) else None;
    var token := EncodeNextToken(last, json);
    if last == None {
      NoKeyNoToken(json);
    } else {
      TokenRoundTrip(last.value, json);
    }
    return Some(Page(items, token.value)), read;
  }

  method ReadRows(rows: seq<Row>, from: nat, stop: nat) returns (items: seq<string>)
    requires from <= stop <= |rows|
    ensures items == ItemsOf(rows[from..stop])
  {
    items := [];
    for i := from to stop
      invariant items == ItemsOf(rows[from..i])
    {
      assert rows[from..i + 1][..i - from] == rows[from..i];
      items := items + [rows[i].item];
    }
  }

  lemma NoKeyNoToken(json: Json)
    ensures TokenOf(None, json) == Some("")
  {
  }

  /** Following tokens from the empty one lists every item exactly once, in index order, whatever the limit and
      wherever the store marks the end; the rows behind the cursor decrease. */
  method FollowTokens(rows: seq<Row>, limit: nat, marks: nat -> bool, json: Json) returns (all: seq<string>)
    requires IndexOk(rows) && Faithful(json) && limit > 0
    ensures all == ItemsOf(rows)
  {
    hide CursorOf, Behind, IndexOk, Faithful, ItemsOf, CursorAt;
    all := [];
    var position, token, done, pages := 0, "", false, 0;
    assert CursorAt(rows, 0, CursorOf(token, json)) by { EmptyTokenStarts(json); CursorAtStart(rows); }
    assert rows[..0] == [] && ItemsOf([]) == [];
    while !done
      invariant 0 <= position <= |rows|
      invariant all == ItemsOf(rows[..position])
      invariant done ==> position == |rows|
      invariant !done ==> CursorAt(rows, position, CursorOf(token, json))
      decreases if done then 0 else |rows| - position + 1
    {
      CursorPosition(rows, position, CursorOf(token, json));
      var page, read := ReadPage(rows, limit, token, marks(pages), json);
      ItemsConcat(rows, position, read);
      PageLeadsOn(rows, position, limit, marks(pages), page.value, read, json);
      all := all + page.value.items;
      position := position + read;
      token := page.value.nextToken;
      done := token == "";
      pages := pages + 1;
    }
    assert rows[..|rows|] == rows;
  }

  lemma CursorAtStart(rows: seq<Row>)
    ensures CursorAt(rows, 0, Start)
  {
  }

  /** A page without a token was the last; one with a token leads to the rows behind it. */
  lemma PageLeadsOn(rows: seq<Row>, position: nat, limit: nat, marks: bool, page: Page, read: nat, json: Json)
    requires PageOk(rows, position, limit, marks, page, read, json) && limit > 0
    ensures page.nextToken == "" ==> position + read == |rows|
    ensures page.nextToken != "" ==> read > 0 && CursorAt(rows, position + read, CursorOf(page.nextToken, json))
  {
    hide CursorOf, ItemsOf;
  }

  lemma EmptyTokenStarts(json: Json)
    ensures CursorOf("", json) == Start
  {
  }

  /** The cursor stands behind the first `position` rows. */
  ghost predicate CursorAt(rows: seq<Row>, position: nat, cursor: Cursor) {
    position <= |rows| && if position == 0 then cursor == Start else cursor == After(rows[position - 1].key)
  }

  lemma CursorPosition(rows: seq<Row>, position: nat, cursor: Cursor)
    requires IndexOk(rows) && CursorAt(rows, position, cursor)
    ensures cursor != Malformed && position == Behind(rows, cursor)
  {
    if position > 0 { PositionOf(rows, position - 1); }
  }

  lemma ItemsConcat(rows: seq<Row>, position: nat, read: nat)
    requires position + read <= |rows|
    ensures ItemsOf(rows[..position]) + ItemsOf(rows[position..position + read]) == ItemsOf(rows[..position + read])
  {
  }
}
