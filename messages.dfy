/** The change message handed to the event publisher: a trigger, the pair of
    records before and after the change, and the logical entity name.
    The record type `E` is left open, so the same messages describe live
    entities (in the listener) and anything the transformer maps them to. */
module Messages {
  import opened Wrappers

  /** ContentGridMessageTrigger: the kind of change that was observed. */
  datatype Trigger = Create | Update | Delete

  /** DataEntity: the record before the change (`oldEntity`, the Java
      field `old` of `DataEntity`) and after it (`entity`); `None` stands for `null`. */
  datatype DataEntity<E> = DataEntity(oldEntity: Option<E>, entity: Option<E>)

  datatype ContentGridMessage<E> = ContentGridMessage(trigger: Trigger, data: DataEntity<E>, entityName: string)

  /** The shape every published message has: a create carries only the new
      record, a delete only the old one, an update both. */
  predicate WellFormed<E>(m: ContentGridMessage<E>) {
    match m.trigger
    case Create => m.data.oldEntity.None? && m.data.entity.Some?
    case Delete => m.data.oldEntity.Some? && m.data.entity.None?
    case Update => m.data.oldEntity.Some? && m.data.entity.Some?
  }

  /** The message published after an insert: nothing before, the record after. */
  function InsertMessage<E>(entity: E, entityName: string): (m: ContentGridMessage<E>)
    ensures WellFormed(m) && m.trigger == Create
    ensures m.data.entity == Some(entity) && m.entityName == entityName
  {
    ContentGridMessage(Create, DataEntity(None, Some(entity)), entityName)
  }

  /** The message published after an update: the prior snapshot, then the live record. */
  function UpdateMessage<E>(snapshot: E, entity: E, entityName: string): (m: ContentGridMessage<E>)
    ensures WellFormed(m) && m.trigger == Update
    ensures m.data.oldEntity == Some(snapshot) && m.data.entity == Some(entity)
    ensures m.entityName == entityName
  {
    ContentGridMessage(Update, DataEntity(Some(snapshot), Some(entity)), entityName)
  }

  /** The message published after a delete: the record before, nothing after. */
  function DeleteMessage<E>(entity: E, entityName: string): (m: ContentGridMessage<E>)
    ensures WellFormed(m) && m.trigger == Delete
    ensures m.data.oldEntity == Some(entity) && m.entityName == entityName
  {
    ContentGridMessage(Delete, DataEntity(Some(entity), None), entityName)
  }

  /** The message published after one of an owner's collections changed: an
      update whose two sides are both the owner. */
  function CollectionUpdateMessage<E>(owner: E, entityName: string): (m: ContentGridMessage<E>)
    ensures WellFormed(m) && m.trigger == Update
    ensures m.data.oldEntity == m.data.entity == Some(owner)
    ensures m.entityName == entityName
  {
    ContentGridMessage(Update, DataEntity(Some(owner), Some(owner)), entityName)
  }
}
