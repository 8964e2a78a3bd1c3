/** CCAPI20_MsgBase: the methods as they change the fields and call each other, against the steps of PutQueue. */
module MsgBase {
  import opened Options
  import opened DynStore
  import opened PutQueue

  class CCAPI20_MsgBase {
    var putMsgbufferQueue: Store
    var curPutMessage: Option<Buffer>
    var registered: bool
    /** Numbers the messages, in place of their contents. */
    var next: nat
    ghost var log: seq<Event>

    ghost function Here(): Base
      reads this
    {
      Base(putMsgbufferQueue, curPutMessage, registered, next)
    }

    ghost predicate Did(step: Step, before: seq<Event>)
      reads this
    {
      Here() == step.0 && log == before + step.1
    }

    constructor ()
      ensures Here() == NewBase && log == [] && Watched(Here(), log)
    {
      putMsgbufferQueue, curPutMessage, registered, next, log := Store([], 0, []), None, false, 0, [];
    }

    ghost method Note(es: seq<Event>)
      modifies this`log
      ensures log == old(log) + es
    {
      log := log + es;
    }

    method FreeCurPutMsg()
      modifies this`curPutMessage, this`putMsgbufferQueue
      ensures Here() == FreeCur(old(Here()))
    {
      var toDel := curPutMessage;
      curPutMessage := None;
      if toDel.Some? {
        putMsgbufferQueue := FreeTo(putMsgbufferQueue, toDel.value.id);
      }
    }

    method AllocAndPutMsg(release: bool, results: seq<Result>)
      modifies this
      ensures Did(Drained(Queued(old(Here()), release), results), old(log))
      decreases |results|, if curPutMessage == None then 2 + |putMsgbufferQueue.queue| else 0, 1
    {
      var (store, cmsg) := AllocFrom(putMsgbufferQueue);
      var data := DynStore.Message(next, release);
      next := next + 1;
      putMsgbufferQueue := Enter(store, Buffer(cmsg, data));
      EmptyPutMsgbufferQueue(results);
    }

    method EmptyPutMsgbufferQueue(results: seq<Result>)
      modifies this
      ensures Did(Drained(old(Here()), results), old(log))
      decreases |results|, if curPutMessage == None then 1 + |putMsgbufferQueue.queue| else 0, 0
    {
      if curPutMessage == None {
        var (store, first) := Leave(putMsgbufferQueue);
        putMsgbufferQueue, curPutMessage := store, first;
        if first.Some? {
          PutCurrent(first.value.data, results);
        }
      }
    }

    /** The current message is put, or dropped, or leads to the release. */
    method PutCurrent(data: DynStore.Message, results: seq<Result>)
      requires curPutMessage.Some? && curPutMessage.value.data == data
      modifies this
      ensures Did(Sent(old(Here()), results), old(log))
      decreases |results|, 1 + |putMsgbufferQueue.queue|, 2
    {
      if data.release {
        FreeCurPutMsg();
        CapiBaseRelease();
      } else if registered {
        ghost var before, b := log, Here();
        Note([Put(data.serial)]);
        PutMessageComplete(results);
        assert before + [Put(data.serial)] + Completed(b, results).1
            == before + ([Put(data.serial)] + Completed(b, results).1);
      } else {
        FreeCurPutMsg();
      }
    }

    /** CapiBase_Release: the application has no number from now on. */
    method CapiBaseRelease()
      modifies this`registered, this`log
      ensures !registered && log == old(log) + [CapiRelease]
    {
      registered := false;
      Note([CapiRelease]);
    }

    /** CapiBase_PutMessage calls this with the result of capi20_put_message. */
    method PutMessageComplete(results: seq<Result>)
      requires curPutMessage.Some?
      modifies this
      ensures Did(Completed(old(Here()), results), old(log))
      decreases |results|, 1 + |putMsgbufferQueue.queue|, 1
    {
      ghost var before := log;
      if results != [] && results[0] != Ok {
        HandleMessageError(results[0]);
      }
      FreeCurPutMsg();
      ghost var done := Done(PutQueue.Head(results) == IllAppNr);
      Note([done]);
      ghost var es := Drained(Here(), PutQueue.Tail(results)).1;
      EmptyPutMsgbufferQueue(if results == [] then [] else results[1..]);
      assert before + [done] + es == before + ([done] + es);
    }

    method HandleMessageError(result: Result)
      requires curPutMessage.Some?
      modifies this
      ensures Here() == Handled(old(Here()), result) && curPutMessage == old(curPutMessage) && log == old(log)
      decreases 0, 0, 4
    {
      match result
      case Ok =>
      case IllAppNr =>
        if registered {
          RELEASE([]);
        }
      case Failed(reaction) => Answer(reaction);
    }

    /** What the handlers do while the message is still in flight. */
    method Answer(calls: seq<PutQueue.Call>)
      requires curPutMessage.Some?
      modifies this
      ensures Here() == React(old(Here()), calls) && curPutMessage == old(curPutMessage) && log == old(log)
      decreases 0, 0, 3, |calls|
    {
      if calls != [] {
        if calls[0] == Call.Release {
          RELEASE([]);
        } else {
          AllocAndPutMsg(false, []);
        }
        Answer(calls[1..]);
      }
    }

    method RELEASE(results: seq<Result>)
      modifies this
      ensures Did(Drained(Released(old(Here())), results), old(log))
      decreases |results|, if curPutMessage == None then 3 + |putMsgbufferQueue.queue| else 0, 2
    {
      putMsgbufferQueue := FreeAll(putMsgbufferQueue);
      AllocAndPutMsg(true, results);
    }

    method REGISTER(succeeds: bool)
      requires !registered
      modifies this
      ensures Did(Next(old(Here()), Register(succeeds)), old(log))
    {
      putMsgbufferQueue := FreeAll(putMsgbufferQueue);
      FreeCurPutMsg();
      registered := succeeds;
      Note(if succeeds then [Registered(next)] else []);
    }

    method ReleaseComplete()
      modifies this
      ensures Did(Next(old(Here()), Input.ReleaseComplete), old(log))
    {
      putMsgbufferQueue := FreeAll(putMsgbufferQueue);
      FreeCurPutMsg();
    }

    /** One call from outside. */
    method Take(input: Input)
      requires PutQueue.Conforms(Here(), input)
      modifies this
      ensures Did(Next(old(Here()), input), old(log))
    {
      match input
      case AllocAndPut(results) => AllocAndPutMsg(false, results);
      case Release(results) => RELEASE(results);
      case Register(succeeds) => REGISTER(succeeds);
      case ReleaseComplete => ReleaseComplete();
    }

    method TakeInTurn(inputs: seq<Input>)
      requires RunConforms(Here(), inputs)
      modifies this
      ensures Did(Run(old(Here()), inputs), old(log))
      decreases |inputs|
    {
      ghost var b, before := Here(), log;
      RunFirst(b, inputs, before);
      if inputs != [] {
        Take(inputs[0]);
        TakeInTurn(inputs[1..]);
      }
    }

    /** Any calls in turn.  What the observer at the CAPI demands of the whole log goes on to hold, and between
        calls every buffer is in the pool or in the queue. */
    method TakeAll(inputs: seq<Input>)
      requires RunConforms(Here(), inputs)
      modifies this
      ensures Did(Run(old(Here()), inputs), old(log))
      ensures old(Watched(Here(), log)) ==> Watched(Here(), log)
    {
      ghost var b, before := Here(), log;
      TakeInTurn(inputs);
      if Watched(b, before) {
        StaysWatched(b, before, inputs);
      }
    }
  }
}
