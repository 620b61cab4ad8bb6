/** What each coordinator call does to lookups by id and by aggregate, and to the outbox. */
module SagaEffects {
  import opened Basics
  import opened Sagas

  lemma PutEffect(c: Coord, s: Saga)
    requires ':' !in s.id && s.id != ""
    ensures forall id :: ':' !in id ==> Get(Put(c, s), id) == if id == s.id then Some(s) else Get(c, id)
    ensures forall t, a :: Ref(Put(c, s), t, a) == Ref(c, t, a)
    ensures Put(c, s).outbox == c.outbox
  {
    forall id | ':' !in id ensures Key(id) == Key(s.id) <==> id == s.id {
      KeysDistinct(id, s.id, "", "");
    }
    forall t, a ensures AggKey(t, a) != Key(s.id) {
      KeysDistinct(s.id, s.id, t, a);
    }
  }

  lemma IndexEffect(c: Coord, t: string, a: string, id: string)
    requires ':' !in t && id != ""
    ensures var c' := c.(redis := c.redis[AggKey(t, a) := IdEntry(id)]);
      && (forall x :: ':' !in x ==> Get(c', x) == Get(c, x))
      && (forall t2, a2 :: ':' !in t2 ==> Ref(c', t2, a2) == if t2 == t && a2 == a then Some(id) else Ref(c, t2, a2))
  {
    forall x | ':' !in x ensures Key(x) != AggKey(t, a) {
      KeysDistinct(x, x, t, a);
    }
    forall t2, a2 | ':' !in t2 ensures AggKey(t2, a2) == AggKey(t, a) <==> t2 == t && a2 == a {
      if AggKey(t2, a2) == AggKey(t, a) {
        AggKeyInjective(t2, a2, t, a);
      }
    }
  }

  lemma StartEffect(c: Coord, s: Saga, io: Io)
    requires ':' !in s.id && s.id != "" && ':' !in s.aggType
    ensures var c' := Start(c, s, io);
      && (forall id :: ':' !in id ==> Get(c', id) == if io.sagaWrite && id == s.id then Some(s) else Get(c, id))
      && (forall t, a :: ':' !in t ==>
            Ref(c', t, a)
            == if io.sagaWrite && io.indexWrite && t == s.aggType && a == s.aggId then Some(s.id) else Ref(c, t, a))
      && c'.outbox == if io.sagaWrite && io.indexWrite && io.enqueue
           then c.outbox + [Event(s.aggType, s.aggId, "saga.started", s.id, Started)] else c.outbox
  {
    PutEffect(c, s);
    IndexEffect(Put(c, s), s.aggType, s.aggId, s.id);
    hide Get, Ref, Put, AggKey;
    if io.sagaWrite && io.indexWrite {
      var linked := Put(c, s).(redis := Put(c, s).redis[AggKey(s.aggType, s.aggId) := IdEntry(s.id)]);
      EmitEffect(linked, s, "saga.started", Started, io.enqueue);
    }
  }

  lemma EmitEffect(c: Coord, s: Saga, eventType: string, payload: Payload, ok: bool)
    ensures var c' := Emit(c, s, eventType, payload, ok);
      && (forall id :: Get(c', id) == Get(c, id)) && (forall t, a :: Ref(c', t, a) == Ref(c, t, a))
      && c'.outbox == if ok then c.outbox + [Event(s.aggType, s.aggId, eventType, s.id, payload)] else c.outbox
  {
  }

  /** CompleteStep either changes nothing or stores the advanced saga and emits its step event. */
  lemma CompleteEffect(c: Coord, id: string, name: string, io: Io)
    requires ':' !in id && id != "" && (Get(c, id).Some? ==> Get(c, id).value.id == id)
    ensures var c' := CompleteStep(c, id, name, io); var got := Get(c, id);
      if got.None? || got.value.status == StatusFailed || AlreadyDone(got.value.steps, name) || !io.sagaWrite
      then c' == c
      else
        var s := Advance(got.value, name);
        && (forall x :: ':' !in x ==> Get(c', x) == if x == id then Some(s) else Get(c, x))
        && (forall t, a :: Ref(c', t, a) == Ref(c, t, a))
        && c'.outbox == if io.enqueue
             then c.outbox + [Event(s.aggType, s.aggId, "saga." + name, id, Done(name))] else c.outbox
  {
    if CompleteStep(c, id, name, io) != c {
      var s := Advance(Get(c, id).value, name);
      PutEffect(c, s);
      EmitEffect(Put(c, s), s, "saga." + name, Done(name), io.enqueue);
    } else if Get(c, id).Some? && Get(c, id).value.status != StatusFailed
      && !AlreadyDone(Get(c, id).value.steps, name)
    {
      PutEffect(c, Advance(Get(c, id).value, name));
      EmitEffect(c, Advance(Get(c, id).value, name), "saga." + name, Done(name), io.enqueue);
    }
  }

  /** Fail either changes nothing or stores the failed saga and emits its failure event. */
  lemma FailEffect(c: Coord, id: string, name: string, io: Io)
    requires ':' !in id && id != "" && (Get(c, id).Some? ==> Get(c, id).value.id == id)
    ensures var c' := Fail(c, id, name, io); var got := Get(c, id);
      if got.None? || !io.sagaWrite then c' == c
      else
        var s := MarkFailed(got.value, name);
        && (forall x :: ':' !in x ==> Get(c', x) == if x == id then Some(s) else Get(c, x))
        && (forall t, a :: Ref(c', t, a) == Ref(c, t, a))
        && c'.outbox == if io.enqueue
             then c.outbox + [Event(s.aggType, s.aggId, "saga.failed", id, Failure(name))] else c.outbox
  {
    if Get(c, id).Some? && io.sagaWrite {
      var s := MarkFailed(Get(c, id).value, name);
      PutEffect(c, s);
      EmitEffect(Put(c, s), s, "saga.failed", Failure(name), io.enqueue);
    }
  }

  lemma ExpireEffect(c: Coord, key: string)
    ensures var c' := c.(redis := c.redis - {key});
      && (forall id :: Get(c', id).Some? ==> Get(c', id) == Get(c, id))
      && (forall t, a :: Ref(c', t, a).Some? ==> Ref(c', t, a) == Ref(c, t, a))
      && c'.outbox == c.outbox
  {
  }
}
