/**
 * The broker side of `run`: the topic subscribed to once connected, the
 * early exits of the subscription callback, and the exit on a connection
 * error. The MQTT client is left out; its callbacks' arguments are inputs.
 */
module Subscription {
  import opened Wrappers
  import opened JsValues
  import Config

  const Separator := '/'
  const TopicKey := "topic"

  /** The delivery quality asked for: "at least once". */
  const SubscribeQos := 1

  /** Exit code of every broker-level failure. */
  const BrokerExitCode := -1

  /** `s.split(sep)`: the pieces between separators, empty ones included. */
  function Split(s: string, sep: char): (r: seq<string>)
    ensures |r| >= 1
    ensures forall i :: 0 <= i < |r| ==> sep !in r[i]
  {
    if s == [] then [""]
    else
      var rest := Split(s[1..], sep);
      if s[0] == sep then [""] + rest
      else [[s[0]] + rest[0]] + rest[1..]
  }

  /** `segments.join(sep)`. */
  function Join(segments: seq<string>, sep: char): string
    requires |segments| >= 1
  {
    if |segments| == 1 then segments[0]
    else segments[0] + [sep] + Join(segments[1..], sep)
  }

  /** Joining the pieces of a split gives back the string. */
  lemma {:induction false} JoinSplit(s: string, sep: char)
    ensures Join(Split(s, sep), sep) == s
  {
    if s != [] {
      var rest := Split(s[1..], sep);
      JoinSplit(s[1..], sep);
      if s[0] != sep {
        if |rest| == 1 {
          assert Join(Split(s, sep), sep) == [s[0]] + rest[0];
        } else {
          assert Split(s, sep)[1..] == rest[1..];
          assert Join(rest, sep) == rest[0] + [sep] + Join(rest[1..], sep);
        }
        assert s == [s[0]] + s[1..];
      }
    }
  }

  /** A string without the separator is one piece. */
  lemma {:induction false} SplitWithoutSeparator(a: string, sep: char)
    requires sep !in a
    ensures Split(a, sep) == [a]
  {
    if a != [] {
      SplitWithoutSeparator(a[1..], sep);
      assert [a[0]] + a[1..] == a;
    }
  }

  /** A separator ends the first piece; the rest is split on its own. */
  lemma {:induction false} SplitAtSeparator(a: string, b: string, sep: char)
    requires sep !in a
    ensures Split(a + [sep] + b, sep) == [a] + Split(b, sep)
  {
    if a == [] {
      assert a + [sep] + b == [sep] + b;
      assert ([sep] + b)[1..] == b;
    } else {
      SplitAtSeparator(a[1..], b, sep);
      var s := a + [sep] + b;
      assert s[0] == a[0] && s[1..] == a[1..] + [sep] + b;
      assert [a[0]] + a[1..] == a;
    }
  }

  /** Splitting pieces that hold no separator, once joined, gives back the pieces. */
  lemma {:induction false} SplitJoin(segments: seq<string>, sep: char)
    requires |segments| >= 1
    requires forall i :: 0 <= i < |segments| ==> sep !in segments[i]
    ensures Split(Join(segments, sep), sep) == segments
  {
    if |segments| == 1 {
      SplitWithoutSeparator(segments[0], sep);
    } else {
      SplitJoin(segments[1..], sep);
      SplitAtSeparator(segments[0], Join(segments[1..], sep), sep);
      assert [segments[0]] + segments[1..] == segments;
    }
  }

  /** The topic `run` subscribes to: `channel + '/' + res`. */
  function SubscribeTopic(o: Config.BouOptions): string {
    o.beebotteChannel + [Separator] + o.beebotteResource
  }

  /**
   * The subscribed topic names the channel and the resource: it splits back
   * into exactly those two when neither contains '/'.
   */
  lemma SubscribeTopicSplits(o: Config.BouOptions)
    requires Separator !in o.beebotteChannel && Separator !in o.beebotteResource
    ensures Split(SubscribeTopic(o), Separator) == [o.beebotteChannel, o.beebotteResource]
  {
    SplitJoin([o.beebotteChannel, o.beebotteResource], Separator);
    assert Join([o.beebotteChannel, o.beebotteResource], Separator) == SubscribeTopic(o);
  }

  /** How a broker event ends for the process. */
  datatype Outcome =
    | Subscribed(segments: seq<string>)   // the callback returns; the pieces of the granted topic are logged
    | Exit(code: int)                     // `process.exit`
    | Thrown                              // `topic.split` is not a function: the callback throws

  /** The events `run` listens for, apart from inbound messages. */
  datatype BrokerEvent =
    | SubAck(err: JsValue, granted: JsValue)   // the subscription callback's arguments
    | ConnectionError

  /** The topic of the first grant, when `granted[0]?.topic` is truthy. */
  function GrantedTopic(granted: JsValue): JsValue {
    if granted.Defined? && granted.json.JArr? && |granted.json.elems| > 0
       && !granted.json.elems[0].JNull?
    then Prop(granted.json.elems[0], TopicKey)
    else Undefined
  }

  /**
   * The subscription callback's checks, in order: an error, a falsy
   * `granted`, a `granted` that is not an array or is empty, and a first
   * grant without a truthy `topic` each exit with -1. Otherwise the topic
   * is split on '/'; the split is logged and never checked.
   */
  function OnSubscribe(err: JsValue, granted: JsValue): (r: Outcome)
    ensures r.Exit? ==> r.code == BrokerExitCode
    ensures r.Exit? <==> Truthy(err) || !Truthy(granted) || !granted.json.JArr?
                         || |granted.json.elems| == 0 || !Truthy(GrantedTopic(granted))
    ensures r == Thrown <==> !r.Exit? && !GrantedTopic(granted).json.JStr?
    ensures r.Subscribed? ==> GrantedTopic(granted).json.JStr?
                              && r.segments == Split(GrantedTopic(granted).json.s, Separator)
    ensures r.Subscribed? ==> |r.segments| >= 1
                              && Join(r.segments, Separator) == GrantedTopic(granted).json.s
  {
    if Truthy(err) then Exit(BrokerExitCode)
    else if !Truthy(granted) then Exit(BrokerExitCode)
    else if !granted.json.JArr? || |granted.json.elems| == 0 then Exit(BrokerExitCode)
    else
      var topic := GrantedTopic(granted);
      if !Truthy(topic) then Exit(BrokerExitCode)
      else if !topic.json.JStr? then Thrown
      else
        JoinSplit(topic.json.s, Separator);
        Subscribed(Split(topic.json.s, Separator))
  }

  /** Every broker event: a connection error always exits with -1. */
  function OnBrokerEvent(e: BrokerEvent): (r: Outcome)
    ensures e.ConnectionError? ==> r == Exit(BrokerExitCode)
    ensures e.SubAck? ==> r == OnSubscribe(e.err, e.granted)
  {
    match e
    case ConnectionError => Exit(BrokerExitCode)
    case SubAck(err, granted) => OnSubscribe(err, granted)
  }

  /** The acknowledgment mqtt.js gives for a granted subscription to `topic`. */
  function Grant(topic: string): JsValue {
    Defined(JArr([JObj(map[TopicKey := JStr(topic), "qos" := JNum(SubscribeQos as real)])]))
  }

  /**
   * A subscription granted without error for the requested topic succeeds,
   * and its topic splits back into the configured channel and resource.
   */
  lemma GrantedSubscriptionSucceeds(o: Config.BouOptions, err: JsValue)
    requires !Truthy(err)
    requires Separator !in o.beebotteChannel && Separator !in o.beebotteResource
    ensures OnSubscribe(err, Grant(SubscribeTopic(o)))
            == Subscribed([o.beebotteChannel, o.beebotteResource])
  {
    var g := Grant(SubscribeTopic(o));
    assert GrantedTopic(g) == Defined(JStr(SubscribeTopic(o)));
    SubscribeTopicSplits(o);
  }
}
