/** The transformer that turns a change message about records into a payload
    about their resource representations. The representation assembler is a
    collaborator whose rules are not part of this model: it is the function
    `toModel`, from a record `E` to a representation `M`. */
module PayloadTransformer {
  import opened Wrappers
  import opened Messages

  /** PersistentEntityResourceData: the representations before and after the change. */
  datatype PersistentEntityResourceData<M> = PersistentEntityResourceData(oldModel: Option<M>, newModel: Option<M>)

  /** ContentGridMessagePayload: trigger, entity name and the two representations. */
  datatype ContentGridMessagePayload<M> = ContentGridMessagePayload(trigger: Trigger, entityName: string, data: PersistentEntityResourceData<M>)

  /** The payload counterpart of `WellFormed`: the same sides are present. */
  predicate PayloadWellFormed<M>(p: ContentGridMessagePayload<M>) {
    match p.trigger
    case Create => p.data.oldModel.None? && p.data.newModel.Some?
    case Delete => p.data.oldModel.Some? && p.data.newModel.None?
    case Update => p.data.oldModel.Some? && p.data.newModel.Some?
  }

  /** One side assembled: its representation, and the records handed to the
      assembler on the way. */
  datatype Assembled<E, M> = Assembled(model: Option<M>, calls: seq<E>)

  /** The payload together with the records handed to the assembler, in the
      order it was asked for them. */
  datatype Transformed<E, M> = Transformed(payload: ContentGridMessagePayload<M>, calls: seq<E>)

  /** A null-preserving use of the assembler on one side of the message: the
      assembler is asked only for a record that is there. */
  function ModelOf<E, M>(side: Option<E>, toModel: E --> M): Assembled<E, M>
    requires side.Some? ==> toModel.requires(side.value)
  {
    match side
    case None => Assembled(None, [])
    case Some(record) => Assembled(Some(toModel(record)), [record])
  }

  /** Each side is assembled on its own: the old record gives the old model and
      the new record the new model, absent sides stay absent, and the trigger
      and entity name are carried over unchanged. The assembler may be partial:
      it need only accept the records the message holds, because the
      transformer never hands it an absent side. It is asked for the new
      record first, then the old one, once each. */
  function TransformPayload<E, M>(message: ContentGridMessage<E>, toModel: E --> M): (r: Transformed<E, M>)
    requires message.data.entity.Some? ==> toModel.requires(message.data.entity.value)
    requires message.data.oldEntity.Some? ==> toModel.requires(message.data.oldEntity.value)
    ensures r.payload.trigger == message.trigger && r.payload.entityName == message.entityName
    ensures r.payload.data.newModel.None? <==> message.data.entity.None?
    ensures r.payload.data.oldModel.None? <==> message.data.oldEntity.None?
    ensures message.data.entity.Some? ==> r.payload.data.newModel == Some(toModel(message.data.entity.value))
    ensures message.data.oldEntity.Some? ==> r.payload.data.oldModel == Some(toModel(message.data.oldEntity.value))
    ensures |r.calls| == (if message.data.entity.Some? then 1 else 0) + (if message.data.oldEntity.Some? then 1 else 0)
    ensures forall record :: record in r.calls ==> Some(record) == message.data.entity || Some(record) == message.data.oldEntity
    ensures message.data.entity.Some? ==> r.calls[0] == message.data.entity.value
    ensures message.data.oldEntity.Some? ==> r.calls[|r.calls| - 1] == message.data.oldEntity.value
  {
    var newSide := ModelOf(message.data.entity, toModel);
    var oldSide := ModelOf(message.data.oldEntity, toModel);
    Transformed(ContentGridMessagePayload(message.trigger, message.entityName, PersistentEntityResourceData(oldSide.model, newSide.model)),
                newSide.calls + oldSide.calls)
  }

  /** A well-formed message gives a well-formed payload, and the assembler is
      asked once for a create or a delete and twice for an update: for the
      new record, then for the old one. */
  lemma TransformWellFormed<E, M>(message: ContentGridMessage<E>, toModel: E -> M)
    requires WellFormed(message)
    ensures PayloadWellFormed(TransformPayload(message, toModel).payload)
    ensures |TransformPayload(message, toModel).calls| == (if message.trigger == Update then 2 else 1)
    ensures message.trigger == Update ==>
              TransformPayload(message, toModel).calls == [message.data.entity.value, message.data.oldEntity.value]
  {
  }

  /** The payloads of the four listener messages, end to end. */
  lemma TransformListenerMessages<E, M>(record: E, snapshot: E, name: string, toModel: E -> M)
    ensures TransformPayload(InsertMessage(record, name), toModel).payload
            == ContentGridMessagePayload(Create, name, PersistentEntityResourceData(None, Some(toModel(record))))
    ensures TransformPayload(UpdateMessage(snapshot, record, name), toModel).payload
            == ContentGridMessagePayload(Update, name, PersistentEntityResourceData(Some(toModel(snapshot)), Some(toModel(record))))
    ensures TransformPayload(DeleteMessage(record, name), toModel).payload
            == ContentGridMessagePayload(Delete, name, PersistentEntityResourceData(Some(toModel(record)), None))
    ensures TransformPayload(CollectionUpdateMessage(record, name), toModel).payload
            == ContentGridMessagePayload(Update, name, PersistentEntityResourceData(Some(toModel(record)), Some(toModel(record))))
  {
  }

  /** Sides are never swapped: when the assembler tells records apart, the
      payload tells exactly which record stood on which side. */
  lemma TransformKeepsSides<E, M>(m1: ContentGridMessage<E>, m2: ContentGridMessage<E>, toModel: E -> M)
    requires forall x, y :: toModel(x) == toModel(y) ==> x == y
    requires TransformPayload(m1, toModel).payload == TransformPayload(m2, toModel).payload
    ensures m1 == m2
  {
  }
}
