/** `convertMessages`: the prompt of a language-model call flattened into the
    `{role, content: string}` messages the GigaChat chat endpoint takes. */
module GigaChatMessages {
  import opened Wrappers

  datatype Role = System | User | Assistant | Tool

  type NonUserRole = r: Role | r != User witness System

  /** A content part. `TextPart` is a part whose `type` is `'text'`; every other
      part (image, file, tool call, tool result, ...) is an `OtherPart`, carrying
      its own `text` property when it has one. */
  datatype Part = TextPart(text: string) | OtherPart(textProperty: Option<string>)

  /** The content of a non-user message: a string, an array of parts, or neither. */
  datatype Content = StringContent(text: string) | PartList(parts: seq<Part>) | NoContent

  /** A prompt message. A user message always carries an array of parts. */
  datatype PromptMessage =
    | UserMessage(parts: seq<Part>)
    | OtherMessage(role: NonUserRole, content: Content)
  {
    function Role(): Role {
      if UserMessage? then User else role
    }
  }

  /** A message as sent on the wire. */
  datatype WireMessage = WireMessage(role: Role, content: string)

  /** `array.join('')`. */
  function Concat(ss: seq<string>): string
  {
    if ss == [] then "" else ss[0] + Concat(ss[1..])
  }

  lemma {:induction false} ConcatAppend(a: seq<string>, b: seq<string>)
    ensures Concat(a + b) == Concat(a) + Concat(b)
  {
    if a == [] {
      assert a + b == b;
    } else {
      assert (a + b)[1..] == a[1..] + b;
      ConcatAppend(a[1..], b);
    }
  }

  /** What a part contributes to user content: its text if its type is `'text'`. */
  function UserPartText(p: Part): string
  {
    match p
    case TextPart(t) => t
    case OtherPart(_) => ""
  }

  /** What a part contributes to other content: its `text` property if it has one. */
  function PropertyText(p: Part): string
  {
    match p
    case TextPart(t) => t
    case OtherPart(Some(t)) => t
    case OtherPart(None) => ""
  }

  function FlattenUser(parts: seq<Part>): string
  {
    Concat(seq(|parts|, i requires 0 <= i < |parts| => UserPartText(parts[i])))
  }

  function FlattenParts(parts: seq<Part>): string
  {
    Concat(seq(|parts|, i requires 0 <= i < |parts| => PropertyText(parts[i])))
  }

  function FlattenContent(c: Content): string
  {
    match c
    case StringContent(s) => s
    case PartList(parts) => FlattenParts(parts)
    case NoContent => ""
  }

  /** One element of `convertMessages`' map. */
  function ConvertMessage(m: PromptMessage): (r: WireMessage)
    ensures r.role == m.Role()
    ensures m.UserMessage? ==> r.content == FlattenUser(m.parts)
    ensures m.OtherMessage? ==> r.content == FlattenContent(m.content)
  {
    match m
    case UserMessage(parts) => WireMessage(User, FlattenUser(parts))
    case OtherMessage(role, content) => WireMessage(role, FlattenContent(content))
  }

  /** `convertMessages`: one wire message per prompt message, in order, roles kept. */
  function ConvertMessages(prompt: seq<PromptMessage>): (r: seq<WireMessage>)
    ensures |r| == |prompt|
    ensures forall i :: 0 <= i < |r| ==> r[i].role == prompt[i].Role() && r[i] == ConvertMessage(prompt[i])
  {
    seq(|prompt|, i requires 0 <= i < |prompt| => ConvertMessage(prompt[i]))
  }

  /** Converting a prompt piecewise is converting it whole. */
  lemma ConvertMessagesAppend(a: seq<PromptMessage>, b: seq<PromptMessage>)
    ensures ConvertMessages(a + b) == ConvertMessages(a) + ConvertMessages(b)
  {
  }

  /** Flattening user content distributes over concatenation of the parts ... */
  lemma {:induction false} FlattenUserAppend(a: seq<Part>, b: seq<Part>)
    ensures FlattenUser(a + b) == FlattenUser(a) + FlattenUser(b)
  {
    var sa := seq(|a|, i requires 0 <= i < |a| => UserPartText(a[i]));
    var sb := seq(|b|, i requires 0 <= i < |b| => UserPartText(b[i]));
    assert seq(|a + b|, i requires 0 <= i < |a + b| => UserPartText((a + b)[i])) == sa + sb;
    ConcatAppend(sa, sb);
  }

  /** ... and a single part gives its text, or '' for a non-text part; together
      with FlattenUserAppend this pins FlattenUser down completely. */
  lemma FlattenUserSingle(p: Part)
    ensures FlattenUser([p]) == (if p.TextPart? then p.text else "")
  {
    assert seq(1, i requires 0 <= i < 1 => UserPartText([p][i])) == [UserPartText(p)];
    assert [UserPartText(p)][1..] == [];
    assert Concat([UserPartText(p)]) == UserPartText(p) + Concat([]);
    assert UserPartText(p) + "" == UserPartText(p);
  }

  /** The same two facts for the content of other roles, where a non-text part
      contributes its `text` property if it has one. */
  lemma {:induction false} FlattenPartsAppend(a: seq<Part>, b: seq<Part>)
    ensures FlattenParts(a + b) == FlattenParts(a) + FlattenParts(b)
  {
    var sa := seq(|a|, i requires 0 <= i < |a| => PropertyText(a[i]));
    var sb := seq(|b|, i requires 0 <= i < |b| => PropertyText(b[i]));
    assert seq(|a + b|, i requires 0 <= i < |a + b| => PropertyText((a + b)[i])) == sa + sb;
    ConcatAppend(sa, sb);
  }

  lemma FlattenPartsSingle(p: Part)
    ensures FlattenParts([p]) == (if p.TextPart? then p.text else if p.textProperty.Some? then p.textProperty.value else "")
  {
    assert seq(1, i requires 0 <= i < 1 => PropertyText([p][i])) == [PropertyText(p)];
    assert [PropertyText(p)][1..] == [];
    assert Concat([PropertyText(p)]) == PropertyText(p) + Concat([]);
    assert PropertyText(p) + "" == PropertyText(p);
  }

  /** The two flattenings agree unless some non-text part has a `text` property. */
  lemma {:induction false} FlattenAgreement(parts: seq<Part>)
    requires forall i :: 0 <= i < |parts| ==> parts[i].OtherPart? ==> parts[i].textProperty.None?
    ensures FlattenUser(parts) == FlattenParts(parts)
  {
    if parts != [] {
      assert parts == [parts[0]] + parts[1..];
      FlattenUserAppend([parts[0]], parts[1..]);
      FlattenPartsAppend([parts[0]], parts[1..]);
      FlattenUserSingle(parts[0]);
      FlattenPartsSingle(parts[0]);
      FlattenAgreement(parts[1..]);
    }
  }

  /** `[text "a", image, text "b"]` flattens to `"ab"`. */
  lemma MixedUserContent()
    ensures ConvertMessage(UserMessage([TextPart("a"), OtherPart(None), TextPart("b")])) == WireMessage(User, "ab")
  {
    var a, image, b := TextPart("a"), OtherPart(None), TextPart("b");
    var tail := [image] + [b];
    assert [a, image, b] == [a] + tail;
    FlattenUserAppend([a], tail);
    FlattenUserAppend([image], [b]);
    FlattenUserSingle(a);
    FlattenUserSingle(image);
    FlattenUserSingle(b);
    assert "a" + ("" + "b") == "ab";
  }
}
