/** The callbacks Channel::handleEventWithGuard makes for a set of ready events, in order. */
module Dispatch {
  import opened Registry

  datatype Callback = CloseCallback | ErrorCallback | ReadCallback | WriteCallback

  function Callbacks(revents: Mask): seq<Callback> {
    (if Hup in revents && In !in revents then [CloseCallback] else [])
    + (if Err in revents then [ErrorCallback] else [])
    + (if In in revents || Pri in revents then [ReadCallback] else [])
    + (if Out in revents then [WriteCallback] else [])
  }

  /** The order in which the callbacks of one dispatch come. */
  function Place(cb: Callback): nat {
    match cb
    case CloseCallback => 0
    case ErrorCallback => 1
    case ReadCallback => 2
    case WriteCallback => 3
  }

  /** A callback is due for what is ready. */
  predicate DueFor(cb: Callback, revents: Mask) {
    match cb
    case CloseCallback => Hup in revents && In !in revents
    case ErrorCallback => Err in revents
    case ReadCallback => In in revents || Pri in revents
    case WriteCallback => Out in revents
  }

  /** `calls` are the callbacks due for `revents`, each once, in their places. */
  ghost predicate Exactly(calls: seq<Callback>, revents: Mask) {
    && (forall cb: Callback :: cb in calls <==> DueFor(cb, revents))
    && (forall i, j | 0 <= i < j < |calls| :: Place(calls[i]) < Place(calls[j]))
  }

  /** Every callback due is made, once and in order, and no other. */
  lemma CallbacksExact(revents: Mask)
    ensures Exactly(Callbacks(revents), revents)
  {
    var close := if Hup in revents && In !in revents then [CloseCallback] else [];
    var error := if Err in revents then [ErrorCallback] else [];
    var read := if In in revents || Pri in revents then [ReadCallback] else [];
    var write := if Out in revents then [WriteCallback] else [];
    assert Callbacks(revents) == close + error + read + write;
    assert forall cb: Callback ::
        cb in close + error + read + write <==> cb in close || cb in error || cb in read || cb in write;
  }

  /** The places leave no choice: the due callbacks determine the sequence. */
  lemma ExactlyUnique(a: seq<Callback>, b: seq<Callback>, revents: Mask)
    requires Exactly(a, revents) && Exactly(b, revents)
    ensures a == b
  {
    SamePlaces(a, b);
  }

  lemma {:induction false} SamePlaces(a: seq<Callback>, b: seq<Callback>)
    requires forall cb: Callback :: cb in a <==> cb in b
    requires forall i, j | 0 <= i < j < |a| :: Place(a[i]) < Place(a[j])
    requires forall i, j | 0 <= i < j < |b| :: Place(b[i]) < Place(b[j])
    ensures a == b
  {
    assert b != [] ==> b[0] in b;
    if a != [] {
      assert a[0] in a && a[0] in b;
      assert b[0] in b && b[0] in a;
      assert a[0] == b[0];
      forall cb: Callback ensures cb in a[1..] <==> cb in b[1..] {
        assert cb in a <==> cb == a[0] || cb in a[1..];
        assert cb in b <==> cb == b[0] || cb in b[1..];
        assert a[0] !in a[1..] && b[0] !in b[1..];
      }
      SamePlaces(a[1..], b[1..]);
    }
  }

  /** A callback ends in TcpConnection::handleClose; a read does when readFd returns 0. */
  predicate Closing(cb: Callback, eof: bool) {
    cb.CloseCallback? || (cb.ReadCallback? && eof)
  }

  function CountClosing(todo: seq<Callback>, eof: bool): nat {
    if todo == [] then 0
    else (if Closing(todo[0], eof) then 1 else 0) + CountClosing(todo[1..], eof)
  }

  /** The one shape of readiness that runs handleClose twice in a single dispatch. */
  predicate ClosesTwice(revents: Mask, eof: bool) {
    Hup in revents && In !in revents && Pri in revents && eof
  }

  lemma {:induction false} CountClosingAppend(a: seq<Callback>, b: seq<Callback>, eof: bool)
    ensures CountClosing(a + b, eof) == CountClosing(a, eof) + CountClosing(b, eof)
  {
    if a == [] {
      assert a + b == b;
    } else {
      assert (a + b)[1..] == a[1..] + b;
      CountClosingAppend(a[1..], b, eof);
    }
  }

  /** One dispatch closes at most once, unless EPOLLHUP and EPOLLPRI come without EPOLLIN and the read ends. */
  lemma DispatchClosesOnceIff(revents: Mask, eof: bool)
    ensures CountClosing(Callbacks(revents), eof) == 2 <==> ClosesTwice(revents, eof)
    ensures CountClosing(Callbacks(revents), eof) <= 1 <==> !ClosesTwice(revents, eof)
  {
    var close := if Hup in revents && In !in revents then [CloseCallback] else [];
    var error := if Err in revents then [ErrorCallback] else [];
    var read := if In in revents || Pri in revents then [ReadCallback] else [];
    var write := if Out in revents then [WriteCallback] else [];
    CountClosingAppend(close + error + read, write, eof);
    CountClosingAppend(close + error, read, eof);
    CountClosingAppend(close, error, eof);
  }
}
