/** Chat message documents and the order `GET /api/messages` lists them in. */
module Messages {
  import opened Wrappers

  /** The `media` part a client may attach (base64 text, its kind and MIME type), kept
      as sent. How the document schema actually casts this field is not part of this
      model (see the README's "Left out"). */
  datatype Media = Media(data: string, kind: string, mimeType: string)

  /** The payload of a `new_message` event, restricted to the fields the message schema
      keeps; `timestamp` is absent unless the client sent one. */
  datatype MessageData = MessageData(
    text: string, username: string, profilePicUrl: string, userId: string,
    media: Option<Media>, timestamp: Option<int>)

  /** A stored message; `timestamp` is in milliseconds since the epoch. */
  datatype Message = Message(
    text: string, username: string, profilePicUrl: string, userId: string,
    media: Option<Media>, timestamp: int)

  /** The document `new Message(messageData)` builds: the client's fields as given, and
      the timestamp the client sent or else the clock's time `now`. */
  function Document(d: MessageData, now: int): (m: Message)
    ensures d.timestamp.Some? ==> m.timestamp == d.timestamp.value
    ensures d.timestamp.None? ==> m.timestamp == now
  {
    Message(d.text, d.username, d.profilePicUrl, d.userId, d.media,
            match d.timestamp case Some(t) => t case None => now)
  }

  /** Messages in non-decreasing timestamp order. */
  ghost predicate SortedByTime(ms: seq<Message>) {
    forall i, j :: 0 <= i < j < |ms| ==> ms[i].timestamp <= ms[j].timestamp
  }

  /** Places `m` before the first message that is not earlier than it. */
  function Insert(m: Message, ms: seq<Message>): (r: seq<Message>)
    ensures |r| == |ms| + 1 && (r[0] == m || (ms != [] && r[0] == ms[0]))
  {
    if ms == [] || m.timestamp <= ms[0].timestamp then
      [m] + ms
    else
      [ms[0]] + Insert(m, ms[1..])
  }

  /** Inserting adds exactly the one message. */
  lemma {:induction false} InsertPermutes(m: Message, ms: seq<Message>)
    ensures multiset(Insert(m, ms)) == multiset(ms) + multiset{m}
  {
    if ms != [] && m.timestamp > ms[0].timestamp {
      InsertPermutes(m, ms[1..]);
      assert ms == [ms[0]] + ms[1..];
    }
  }

  /** Inserting into a sorted list keeps it sorted. */
  lemma {:induction false} InsertSorted(m: Message, ms: seq<Message>)
    requires SortedByTime(ms)
    ensures SortedByTime(Insert(m, ms))
  {
    if ms != [] && m.timestamp > ms[0].timestamp {
      var tail := Insert(m, ms[1..]);
      InsertSorted(m, ms[1..]);
      var r := [ms[0]] + tail;
      assert r == Insert(m, ms);
      assert ms[0].timestamp <= tail[0].timestamp;
      forall i, j | 0 <= i < j < |r| ensures r[i].timestamp <= r[j].timestamp {
        assert r[j] == tail[j - 1];
        if i > 0 {
          assert r[i] == tail[i - 1];
        }
      }
    }
  }

  /** The messages sorted ascending by timestamp, as `sort({ timestamp: 1 })` returns
      them: every stored message, each as often as it is stored, earliest first. */
  function SortByTime(ms: seq<Message>): (r: seq<Message>)
    ensures SortedByTime(r)
    ensures multiset(r) == multiset(ms)
  {
    if ms == [] then []
    else
      assert ms == [ms[0]] + ms[1..];
      var sorted := SortByTime(ms[1..]);
      InsertSorted(ms[0], sorted);
      InsertPermutes(ms[0], sorted);
      Insert(ms[0], sorted)
  }
}
