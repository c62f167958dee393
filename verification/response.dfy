/**
 * `setupResponse` and the `Message` class: the count of users becomes a
 * headline and a footer, written into a freshly constructed message, which
 * `postEphemeralTo` turns into the reply request.
 */
module Response {
  import opened Wrappers
  import opened JsValues
  import opened Status
  import opened Ephemeral

  const ErrorText := "boushitsu status: *error* (Sorry, something went wrong.) :x:"
  const ErrorFooter := ":bow:_< Sorry_"
  const ClosedText := "boushitsu status: *closed* :zzz:"
  const ClosedFooter := "No one is currently in the room."
  const OpenText := "boushitsu status: *open* :heavy_check_mark:"
  const PresencePrefix := "Currently in the room "
  /** One marker per person in the room. */
  const Marker := ":bust_in_silhouette:"

  /** The count `getCountOfUsers` gives for a count of exactly zero. */
  const Zero := Defined(JNum(0.0))

  /** `s.repeat(n)`. */
  function Repeat(s: string, n: nat): string {
    if n == 0 then "" else s + Repeat(s, n - 1)
  }

  lemma {:induction false} RepeatLength(s: string, n: nat)
    ensures |Repeat(s, n)| == n * |s|
  {
    if n > 0 {
      RepeatLength(s, n - 1);
    }
  }

  /**
   * How many back-to-back copies of `m` make up `s`, if it is made of them
   * and nothing else.
   */
  function CopiesOf(s: string, m: string): Option<nat>
    requires |m| > 0
    decreases |s|
  {
    if s == [] then Some(0)
    else if |m| <= |s| && s[..|m|] == m then
      match CopiesOf(s[|m|..], m)
      case Some(k) => Some(k + 1)
      case None => None
    else None
  }

  lemma {:induction false} CopiesOfRepeat(m: string, n: nat)
    requires |m| > 0
    ensures CopiesOf(Repeat(m, n), m) == Some(n)
  {
    if n > 0 {
      CopiesOfRepeat(m, n - 1);
      var s := Repeat(m, n);
      assert s[..|m|] == m && s[|m|..] == Repeat(m, n - 1);
    }
  }

  /** The footer of the "open" reply for `n` people. */
  function OpenFooter(n: nat): string {
    PresencePrefix + Repeat(Marker, n)
  }

  /** The number of people a footer shows: the markers after the presence phrase. */
  function OccupantsShown(footer: string): Option<nat> {
    if |PresencePrefix| <= |footer| && footer[..|PresencePrefix|] == PresencePrefix
    then CopiesOf(footer[|PresencePrefix|..], Marker)
    else None
  }

  /**
   * The "open" footer shows exactly `n` markers, no more and no fewer, and
   * its length is that of the phrase plus one marker per person.
   */
  lemma {:induction false} OpenFooterShows(n: nat)
    ensures OccupantsShown(OpenFooter(n)) == Some(n)
    ensures |OpenFooter(n)| == 22 + 20 * n
  {
    var f := OpenFooter(n);
    assert f[..|PresencePrefix|] == PresencePrefix;
    assert f[|PresencePrefix|..] == Repeat(Marker, n);
    CopiesOfRepeat(Marker, n);
    RepeatLength(Marker, n);
  }

  /**
   * The counts whose conversion by `repeat` is modelled: `undefined`, `null`,
   * booleans and numbers. A string, array or object can only arrive as the
   * `length` field of an object-valued `data`.
   */
  predicate Coercible(count: JsValue) {
    !(count.Defined? && (count.json.JStr? || count.json.JArr? || count.json.JObj?))
  }

  /**
   * How many copies `repeat(count)` makes: the count truncated toward zero,
   * with `undefined` (NaN) and `null` reading as 0. `None` is the RangeError
   * `repeat` throws for a count that truncates below zero.
   */
  function RepeatTimes(count: JsValue): (r: Option<nat>)
    requires Coercible(count)
    ensures r.None? <==> count.Defined? && count.json.JNum? && count.json.r <= -1.0
    ensures count.Defined? && count.json.JNum? && count.json.r >= 0.0 ==>
              r.Some? && r.value as real <= count.json.r < r.value as real + 1.0
    ensures count == Undefined || count == Null ==> r == Some(0)
    ensures count.Defined? && count.json.JBool? ==> r == Some(if count.json.b then 1 else 0)
    ensures count.Defined? && count.json.JNum? && -1.0 < count.json.r < 0.0 ==> r == Some(0)
  {
    if count.Defined? && count.json.JBool? then Some(if count.json.b then 1 else 0)
    else if count.Defined? && count.json.JNum? then
      var x := count.json.r;
      if x <= -1.0 then None else if x < 0.0 then Some(0) else Some(x.Floor)
    else Some(0)
  }

  /**
   * The branches of `setupResponse`: `null` is the error reply, exactly 0 is
   * the closed reply, and anything else is the open reply with one marker
   * per counted person. `None` when `repeat` throws, so no message results.
   */
  function Compose(count: JsValue): (r: Option<Reply>)
    requires Coercible(count)
    ensures count == Null ==> r == Some(Reply(ErrorText, ErrorFooter))
    ensures count == Zero ==> r == Some(Reply(ClosedText, ClosedFooter))
    ensures r.None? <==> count != Null && count != Zero && RepeatTimes(count).None?
    ensures r.Some? ==> r.value.text != "" && r.value.footer != ""
    ensures r.Some? ==> (r.value.text == ErrorText <==> count == Null)
    ensures r.Some? ==> (r.value.text == ClosedText <==> count == Zero)
    ensures r.Some? && count != Null && count != Zero ==>
              r.value.text == OpenText && OccupantsShown(r.value.footer) == RepeatTimes(count)
  {
    if count == Null then Some(Reply(ErrorText, ErrorFooter))
    else if count == Zero then Some(Reply(ClosedText, ClosedFooter))
    else
      match RepeatTimes(count)
      case None => None
      case Some(n) =>
        OpenFooterShows(n);
        Some(Reply(OpenText, OpenFooter(n)))
  }

  /**
   * From the endpoint's reply to the message: a failed query gives the
   * error reply, an empty user list the closed reply, and a list of `n > 0`
   * users the open reply with `n` markers and a footer of length 22 + 20n.
   */
  lemma {:induction false} ReplyForBody(body: Option<Json>)
    ensures Rejected(body) ==> Compose(CountOfUsers(body)) == Some(Reply(ErrorText, ErrorFooter))
    ensures UsersInRoom(body) == Some(0) ==>
              Compose(CountOfUsers(body)) == Some(Reply(ClosedText, ClosedFooter))
    ensures UsersInRoom(body).Some? && UsersInRoom(body).value > 0 ==>
              Compose(CountOfUsers(body)) == Some(Reply(OpenText, OpenFooter(UsersInRoom(body).value)))
              && |OpenFooter(UsersInRoom(body).value)| == 22 + 20 * UsersInRoom(body).value
  {
    CountAgreesWithUsersInRoom(body);
    if UsersInRoom(body).Some? {
      var n := UsersInRoom(body).value;
      assert (n as real).Floor == n;
      OpenFooterShows(n);
    }
  }

  /** Different numbers of people give different replies. */
  lemma OpenRepliesDiffer(n1: nat, n2: nat)
    requires n1 != n2
    ensures OpenFooter(n1) != OpenFooter(n2)
  {
    OpenFooterShows(n1);
    OpenFooterShows(n2);
  }

  /** A reply to a slash command: its headline and footer, both empty until set. */
  class Message {
    var text: string
    var footer: string

    constructor ()
      ensures text == "" && footer == ""
    {
      footer := "";
      text := "";
    }

    /**
     * `postEphemeralTo`: the request that carries this message, a POST of
     * the ephemeral payload as JSON to `url`.
     */
    method PostEphemeralTo(url: string) returns (request: Post)
      ensures request.url == url && request.httpMethod == "POST"
      ensures request.contentType == "application/json"
      ensures request.body == EphemeralPayload(Reply(text, footer))
      ensures ReadBack(request.body) == Some(Reply(text, footer))
    {
      var payload := EphemeralPayload(Reply(text, footer));
      ReadBackPayload(Reply(text, footer));
      request := Post(url, "POST", "application/json", payload);
    }
  }

  /**
   * `setupResponse`, after the query: a new message whose two fields are
   * both set by the branch the count selects. `null` when `repeat` throws
   * and the returned promise rejects.
   */
  method SetupResponse(body: Option<Json>) returns (reaction: Message?)
    requires Coercible(CountOfUsers(body))
    ensures reaction == null <==> Compose(CountOfUsers(body)).None?
    ensures reaction != null ==> fresh(reaction)
    ensures reaction != null ==> Compose(CountOfUsers(body)) == Some(Reply(reaction.text, reaction.footer))
  {
    reaction := new Message();
    var count := CountOfUsers(body);
    if count == Null {
      reaction.text := ErrorText;
      reaction.footer := ErrorFooter;
    } else if count == Zero {
      reaction.text := ClosedText;
      reaction.footer := ClosedFooter;
    } else {
      reaction.text := OpenText;
      var times := RepeatTimes(count);
      if times.None? {
        reaction := null;
        return;
      }
      reaction.footer := PresencePrefix + Repeat(Marker, times.value);
    }
  }
}
