/**
 * The body of the private reply `Message.postEphemeralTo` sends to the slash
 * command's response URL: a fixed two-block structure in which only the two
 * text leaves depend on the message. The HTTPS request itself is left out;
 * `Post` records what it would send.
 */
module Ephemeral {
  import opened Wrappers
  import opened JsValues

  /** The two fields of a `Message`: the headline and the footer. */
  datatype Reply = Reply(text: string, footer: string)

  /** What `postEphemeralTo` hands to `https.request`: where, how, and the JSON body. */
  datatype Post = Post(url: string, httpMethod: string, contentType: string, body: Json)

  const TypeKey := "type"
  const TextKey := "text"
  const BlocksKey := "blocks"
  const ElementsKey := "elements"
  const ResponseTypeKey := "response_type"

  /** A Slack text object in markdown. */
  function Mrkdwn(t: string): Json {
    JObj(map[TypeKey := JStr("mrkdwn"), TextKey := JStr(t)])
  }

  /** The payload literal: the headline in a section block, the footer in a context block. */
  function EphemeralPayload(m: Reply): (p: Json)
    ensures p.JObj? && p.fields.Keys == {TextKey, ResponseTypeKey, BlocksKey}
    ensures p.fields[TextKey] == JStr("from boushitsu")
    ensures p.fields[ResponseTypeKey] == JStr("ephemeral")
    ensures p.fields[BlocksKey].JArr? && |p.fields[BlocksKey].elems| == 2
  {
    JObj(map[
      TextKey := JStr("from boushitsu"),
      ResponseTypeKey := JStr("ephemeral"),
      BlocksKey := JArr([
        JObj(map[TypeKey := JStr("section"), TextKey := Mrkdwn(m.text)]),
        JObj(map[TypeKey := JStr("context"), ElementsKey := JArr([Mrkdwn(m.footer)])])
      ])
    ])
  }

  /** The text of a markdown text object, if `j` is one. */
  function MrkdwnText(j: Json): Option<string> {
    if j.JObj? && TypeKey in j.fields && j.fields[TypeKey] == JStr("mrkdwn")
       && TextKey in j.fields && j.fields[TextKey].JStr?
    then Some(j.fields[TextKey].s)
    else None
  }

  /** `j.fields[key]` when `j` is an object holding `key`. */
  function Field(j: Json, key: string): Option<Json> {
    if j.JObj? && key in j.fields then Some(j.fields[key]) else None
  }

  /**
   * How a receiver reads a reply back out of a payload: the section block's
   * text and the single element of the context block.
   */
  function ReadBack(p: Json): Option<Reply> {
    var blocks := Field(p, BlocksKey);
    if blocks.None? || !blocks.value.JArr? || |blocks.value.elems| != 2 then None
    else
      var section := blocks.value.elems[0];
      var context := blocks.value.elems[1];
      var headline := Field(section, TextKey);
      var elements := Field(context, ElementsKey);
      if Field(section, TypeKey) != Some(JStr("section")) || headline.None? then None
      else if Field(context, TypeKey) != Some(JStr("context")) || elements.None? then None
      else if !elements.value.JArr? || |elements.value.elems| != 1 then None
      else
        match (MrkdwnText(headline.value), MrkdwnText(elements.value.elems[0]))
        case (Some(t), Some(f)) => Some(Reply(t, f))
        case _ => None
  }

  /** The payload carries the message it was built from, and nothing else of it. */
  lemma ReadBackPayload(m: Reply)
    ensures ReadBack(EphemeralPayload(m)) == Some(m)
  {
  }

  /** Two messages give the same payload only when they are the same message. */
  lemma PayloadInjective(m1: Reply, m2: Reply)
    ensures EphemeralPayload(m1) == EphemeralPayload(m2) <==> m1 == m2
  {
    if EphemeralPayload(m1) == EphemeralPayload(m2) {
      ReadBackPayload(m1);
      ReadBackPayload(m2);
    }
  }

  /**
   * Everything in the payload apart from the two text leaves is the same for
   * every message: the payload of `m` is the empty message's payload with
   * the headline and the footer put in.
   */
  lemma OnlyTextsVary(m: Reply)
    ensures EphemeralPayload(m) == WithTexts(EphemeralPayload(Reply("", "")), m)
  {
    var empty := EphemeralPayload(Reply("", ""));
    var blocks := empty.fields[BlocksKey];
    assert Field(empty, BlocksKey) == Some(blocks);
    var section := blocks.elems[0];
    var context := blocks.elems[1];
    assert section.fields[TextKey := Mrkdwn(m.text)]
        == map[TypeKey := JStr("section"), TextKey := Mrkdwn(m.text)];
    assert context.fields[ElementsKey := JArr([Mrkdwn(m.footer)])]
        == map[TypeKey := JStr("context"), ElementsKey := JArr([Mrkdwn(m.footer)])];
    assert WithTexts(empty, m).fields == EphemeralPayload(m).fields;
  }

  /** Replaces the headline leaf and the footer leaf of a payload shaped like `EphemeralPayload`'s. */
  function WithTexts(p: Json, m: Reply): Json {
    var blocks := Field(p, BlocksKey);
    if blocks.None? || !blocks.value.JArr? || |blocks.value.elems| != 2 then p
    else
      var section := blocks.value.elems[0];
      var context := blocks.value.elems[1];
      if !section.JObj? || !context.JObj? then p
      else
        JObj(p.fields[BlocksKey := JArr([
          JObj(section.fields[TextKey := Mrkdwn(m.text)]),
          JObj(context.fields[ElementsKey := JArr([Mrkdwn(m.footer)])])])])
  }
}
