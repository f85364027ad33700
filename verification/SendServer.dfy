/** Sending, closing and the disconnect handler of a client socket as they run. */
module SendServer {
  import opened Basics
  import opened SendQueue

  class Connection {
    var queue: seq<Message>
    var closing: bool
    var writing: Option<Message>
    var sent: seq<Message>
    var written: seq<Message>
    var closes: seq<(nat, nat)>
    var handler: Option<int>
    var fired: seq<int>
    var installed: seq<int>

    function View(): State
      reads this
    {
      State(queue, closing, writing, sent, written, closes, handler, fired, installed)
    }

    constructor ()
      ensures View() == NEW
    {
      queue, closing, writing, sent, written := [], false, None, [], [];
      closes, handler, fired, installed := [], None, [], [];
    }

    method CallDisconnected()
      modifies this
      ensures View() == Fire(old(View()))
    {
      if handler.Some? {
        fired := fired + [handler.value];
      }
      handler := None;
    }

    method CloseSocket()
      modifies this
      ensures View() == DoClose(old(View()))
    {
      closes := closes + [(|sent|, |written|)];
      CallDisconnected();
    }

    method ContinueSending()
      modifies this
      ensures View() == SendLoop(old(View()))
    {
      if queue == [] {
        if closing {
          CloseSocket();
        }
        return;
      }
      writing := Some(queue[0]);
    }

    method SendMessage(m: Message)
      modifies this
      ensures View() == Send(old(View()), m)
    {
      queue := queue + [m];
      sent := sent + [m];
      if |queue| == 1 {
        ContinueSending();
      }
    }

    method OnWritten()
      requires writing.Some? && queue != []
      modifies this
      ensures View() == WriteDone(old(View()))
    {
      written := written + [writing.value];
      writing := None;
      queue := queue[1..];
      ContinueSending();
    }

    method DisconnectFromHost()
      modifies this
      ensures View() == Disconnect(old(View()))
    {
      closing := true;
      if queue == [] {
        CloseSocket();
      }
    }

    method OnReaderEnd()
      modifies this
      ensures View() == Fire(old(View()))
    {
      CallDisconnected();
    }

    method SetDisconnectedCallback(id: int)
      modifies this
      ensures View() == Install(old(View()), id)
    {
      handler := Some(id);
      installed := installed + [id];
    }
  }
}
