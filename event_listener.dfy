/** The persistence listener that turns each insert, update, delete and
    collection update into exactly one published change message.

    Entities are objects the persistence layer updates in place, so they are a
    class; their bean properties are a map from property name to value. The
    publisher is an append-only log of the messages it was handed. */
module EventListener {
  import opened Wrappers
  import opened Messages

  /** A bean property value, as far as this model needs to tell values apart. */
  datatype Value = Null | Text(text: string) | Number(number: int) | Flag(flag: bool)

  /** A runtime class: its fully qualified name and its simple name. */
  datatype EntityClass = EntityClass(name: string, simpleName: string)

  /** A managed entity: its class never changes, its bean properties do. */
  class Entity {
    const entityClass: EntityClass
    var properties: map<string, Value>

    /** A fresh instance made by the no-argument constructor: no property has
        been given a value yet. */
    constructor Instantiate(entityClass: EntityClass)
      ensures this.entityClass == entityClass && properties == map[]
    {
      this.entityClass := entityClass;
      properties := map[];
    }

    /** A setter call made by application code. */
    method SetProperty(name: string, value: Value)
      modifies this
      ensures properties == old(properties)[name := value]
    {
      properties := properties[name := value];
    }
  }

  /** The persistence layer's view of an entity class: the names of its
      persistent properties, in the order its state arrays use. */
  datatype EntityPersister = EntityPersister(propertyNames: seq<string>)

  /** The persistence layer never lists a property twice. */
  predicate DistinctNames(names: seq<string>) {
    forall i, j :: 0 <= i < j < |names| ==> names[i] != names[j]
  }

  /** The bean properties of a snapshot after the persistent properties
      `names` were given the values `state`, one by one in index order,
      starting from the properties `current`. */
  function PriorState(current: map<string, Value>, names: seq<string>, state: seq<Value>): map<string, Value>
    requires |names| == |state|
    decreases |names|
  {
    if names == [] then current
    else PriorState(current[names[0] := state[0]], names[1..], state[1..])
  }

  /** The snapshot has the live entity's properties and every persistent one. */
  lemma {:induction false} PriorStateKeys(current: map<string, Value>, names: seq<string>, state: seq<Value>)
    requires |names| == |state|
    ensures PriorState(current, names, state).Keys == current.Keys + set n | n in names
    decreases |names|
  {
    if names != [] {
      PriorStateKeys(current[names[0] := state[0]], names[1..], state[1..]);
      assert forall n :: n in names <==> n == names[0] || n in names[1..];
    }
  }

  /** Every persistent property of the snapshot holds its prior state. */
  lemma {:induction false} PriorStatePersistent(current: map<string, Value>, names: seq<string>, state: seq<Value>, i: nat)
    requires |names| == |state| && DistinctNames(names) && i < |names|
    ensures names[i] in PriorState(current, names, state)
    ensures PriorState(current, names, state)[names[i]] == state[i]
    decreases |names|
  {
    if i == 0 {
      PriorStateOther(current[names[0] := state[0]], names[1..], state[1..], names[0]);
    } else {
      PriorStatePersistent(current[names[0] := state[0]], names[1..], state[1..], i - 1);
    }
  }

  /** A property that is not persistent keeps the live entity's value. */
  lemma {:induction false} PriorStateOther(current: map<string, Value>, names: seq<string>, state: seq<Value>, key: string)
    requires |names| == |state| && key !in names
    ensures key in PriorState(current, names, state) <==> key in current
    ensures key in current ==> PriorState(current, names, state)[key] == current[key]
    decreases |names|
  {
    if names != [] {
      assert key !in names[1..];
      PriorStateOther(current[names[0] := state[0]], names[1..], state[1..], key);
    }
  }

  /** The persister's setPropertyValues: assigns `values[i]` to the persistent
      property `propertyNames[i]` of `target`, for each index in turn. */
  method SetPropertyValues(persister: EntityPersister, target: Entity, values: seq<Value>)
    requires |values| == |persister.propertyNames|
    modifies target
    ensures target.properties == PriorState(old(target.properties), persister.propertyNames, values)
  {
    var names := persister.propertyNames;
    for i := 0 to |names|
      invariant PriorState(target.properties, names[i..], values[i..]) == PriorState(old(target.properties), names, values)
    {
      assert names[i..][1..] == names[i + 1..] && values[i..][1..] == values[i + 1..];
      target.properties := target.properties[names[i] := values[i]];
    }
    assert names[|names|..] == [] && values[|names|..] == [];
  }

  /** The persister's getPropertyValues: the persistent state of `entity`. */
  function GetPropertyValues(persister: EntityPersister, entity: Entity): (state: seq<Value>)
    reads entity
    requires forall n :: n in persister.propertyNames ==> n in entity.properties
    ensures |state| == |persister.propertyNames|
    ensures forall i :: 0 <= i < |state| ==> state[i] == entity.properties[persister.propertyNames[i]]
  {
    var names := persister.propertyNames;
    seq(|names|, i requires 0 <= i < |names| && names[i] in entity.properties reads entity =>
      entity.properties[names[i]])
  }

  /** The @RepositoryRestResource annotation of a repository interface. */
  datatype RestResource = RestResource(itemResourceRel: string)

  /** What the repository registry knows about the repository of an entity
      class: the @RepositoryRestResource annotation found on its interface. */
  datatype RepositoryInformation = RepositoryInformation(restResource: Option<RestResource>)

  /** Character.isWhitespace: the characters it accepts are listed here. The
      no-break spaces are not among them. */
  predicate IsWhitespace(c: char)
    ensures c == ' ' || c == '\t' || c == '\n' ==> IsWhitespace(c)
    ensures c == '\U{00A0}' || c == '\U{2007}' || c == '\U{202F}' ==> !IsWhitespace(c)
    ensures IsWhitespace(c) ==> c as int <= 0x3000
  {
    || c == ' ' || c == '\t' || c == '\n' || c == '\U{000B}' || c == '\U{000C}' || c == '\r'
    || ('\U{001C}' <= c <= '\U{001F}')
    || c == '\U{1680}'
    || ('\U{2000}' <= c <= '\U{200A}' && c != '\U{2007}')
    || c == '\U{2028}' || c == '\U{2029}' || c == '\U{205F}' || c == '\U{3000}'
  }

  /** StringUtils.hasText: some character is not whitespace. */
  predicate HasText(s: string)
    ensures HasText(s) ==> |s| > 0
    ensures (forall i :: 0 <= i < |s| ==> IsWhitespace(s[i])) ==> !HasText(s)
    ensures |s| > 0 && !IsWhitespace(s[0]) ==> HasText(s)
  {
    exists i :: 0 <= i < |s| && !IsWhitespace(s[i])
  }

  predicate IsUpperAscii(c: char) {
    'A' <= c <= 'Z'
  }

  function ToLowerChar(c: char): (r: char)
    ensures !IsUpperAscii(r)
    ensures IsUpperAscii(c) ==> r as int == c as int + 32
    ensures !IsUpperAscii(c) ==> r == c
  {
    if IsUpperAscii(c) then (c as int + 32) as char else c
  }

  /** String.toLowerCase as Java does it in a locale such as English or ROOT,
      on ASCII letters; every other character is kept. The dependence on the
      default locale (`I` becomes U+0131 in Turkish) is not modelled. */
  function ToLowerCase(s: string): (r: string)
    ensures |r| == |s|
    ensures forall i :: 0 <= i < |s| ==> r[i] == ToLowerChar(s[i])
  {
    if s == [] then [] else [ToLowerChar(s[0])] + ToLowerCase(s[1..])
  }

  /** Lower-casing a lower-case name changes nothing. */
  lemma ToLowerCaseIdempotent(s: string)
    ensures ToLowerCase(ToLowerCase(s)) == ToLowerCase(s)
  {
  }

  /** The logical entity name: the item resource relation declared on the
      entity's repository when it has text, otherwise the class's simple name
      in lower case. Defined for every class, so it never fails. */
  function GuessEntityName(repositories: map<EntityClass, RepositoryInformation>, entityClass: EntityClass): (name: string)
    ensures HasText(name) || name == ToLowerCase(entityClass.simpleName)
    ensures name != ToLowerCase(entityClass.simpleName) ==>
              entityClass in repositories && repositories[entityClass].restResource == Some(RestResource(name))
  {
    if entityClass in repositories && repositories[entityClass].restResource.Some?
       && HasText(repositories[entityClass].restResource.value.itemResourceRel)
    then repositories[entityClass].restResource.value.itemResourceRel
    else ToLowerCase(entityClass.simpleName)
  }

  /** The declared relation name wins exactly when it has text; it is never
      whitespace-only or empty. */
  lemma GuessEntityNameDeclared(repositories: map<EntityClass, RepositoryInformation>, entityClass: EntityClass, rel: string)
    requires entityClass in repositories && repositories[entityClass].restResource == Some(RestResource(rel))
    ensures HasText(rel) ==> GuessEntityName(repositories, entityClass) == rel
    ensures !HasText(rel) ==> GuessEntityName(repositories, entityClass) == ToLowerCase(entityClass.simpleName)
  {
  }

  /** Without a usable declared name the result is the simple name with the
      same length and no upper-case letter, equal to it up to case. */
  lemma GuessEntityNameFallback(repositories: map<EntityClass, RepositoryInformation>, entityClass: EntityClass)
    requires entityClass !in repositories || repositories[entityClass].restResource.None?
             || !HasText(repositories[entityClass].restResource.value.itemResourceRel)
    ensures var name := GuessEntityName(repositories, entityClass);
            && |name| == |entityClass.simpleName|
            && (forall i :: 0 <= i < |name| ==> !IsUpperAscii(name[i]))
            && ToLowerCase(name) == name
  {
    ToLowerCaseIdempotent(entityClass.simpleName);
  }

  /** A declared alias "refunds" is used as is; an undeclared class
      PromotionCampaign is named "promotioncampaign". */
  lemma GuessEntityNameExamples(refund: EntityClass, campaign: EntityClass)
    requires refund != campaign && campaign.simpleName == "PromotionCampaign"
    ensures var repositories := map[refund := RepositoryInformation(Some(RestResource("refunds")))];
            && GuessEntityName(repositories, refund) == "refunds"
            && GuessEntityName(repositories, campaign) == "promotioncampaign"
  {
    var repositories := map[refund := RepositoryInformation(Some(RestResource("refunds")))];
    assert GuessEntityName(repositories, refund) == "refunds" by {
      assert !IsWhitespace("refunds"[0]);
    }
    assert GuessEntityName(repositories, campaign) == ToLowerCase(campaign.simpleName);
    LowerPromotionCampaign(campaign.simpleName);
  }

  lemma LowerPromotionCampaign(s: string)
    requires s == "PromotionCampaign"
    ensures ToLowerCase(s) == "promotioncampaign"
  {
    var lower := ToLowerCase(s);
    assert lower[0] == 'p' && lower[1] == 'r' && lower[2] == 'o' && lower[3] == 'm';
    assert lower[4] == 'o' && lower[5] == 't' && lower[6] == 'i' && lower[7] == 'o';
    assert lower[8] == 'n' && lower[9] == 'c' && lower[10] == 'a' && lower[11] == 'm';
    assert lower[12] == 'p' && lower[13] == 'a' && lower[14] == 'i' && lower[15] == 'g';
    assert lower[16] == 'n';
  }

  /** The event publisher, seen as the sequence of messages it was handed. */
  class EventPublisher {
    var log: seq<ContentGridMessage<Entity>>

    constructor ()
      ensures log == []
    {
      log := [];
    }

    method Publish(message: ContentGridMessage<Entity>)
      modifies this
      ensures log == old(log) + [message]
    {
      log := log + [message];
    }
  }

  /** The exception a listener callback can end with. */
  datatype ListenerFailure = NullPointer

  class ContentGridPublisherEventListener {
    const publisher: EventPublisher
    const repositories: map<EntityClass, RepositoryInformation>

    constructor (publisher: EventPublisher, repositories: map<EntityClass, RepositoryInformation>)
      ensures this.publisher == publisher && this.repositories == repositories
    {
      this.publisher := publisher;
      this.repositories := repositories;
    }

    /** Publication never waits for the transaction to commit. */
    function RequiresPostCommitHandling(persister: EntityPersister): (required: bool)
      ensures !required
    {
      false
    }

    /** The misspelled older name of the same question, with the same answer. */
    function RequiresPostCommitHanding(persister: EntityPersister): (required: bool)
      ensures required == RequiresPostCommitHandling(persister) && !required
    {
      RequiresPostCommitHandling(persister)
    }

    method OnPostInsert(entity: Entity)
      modifies publisher
      ensures publisher.log == old(publisher.log) + [InsertMessage(entity, GuessEntityName(repositories, entity.entityClass))]
    {
      publisher.Publish(InsertMessage(entity, GuessEntityName(repositories, entity.entityClass)));
    }

    /** Publishes the live entity together with a snapshot of its prior
        state: a fresh instance of the same class that first gets all the
        entity's bean properties and then has every persistent property set
        back to `oldState`. The live entity itself is not touched. */
    method OnPostUpdate(entity: Entity, persister: EntityPersister, oldState: seq<Value>) returns (ghost snapshot: Entity)
      requires |oldState| == |persister.propertyNames|
      modifies publisher
      ensures fresh(snapshot) && snapshot.entityClass == entity.entityClass
      ensures snapshot.properties == PriorState(entity.properties, persister.propertyNames, oldState)
      ensures unchanged(entity)
      ensures publisher.log == old(publisher.log) + [UpdateMessage(snapshot, entity, GuessEntityName(repositories, entity.entityClass))]
    {
      var oldEntity := new Entity.Instantiate(entity.entityClass);
      oldEntity.properties := entity.properties;
      SetPropertyValues(persister, oldEntity, oldState);
      publisher.Publish(UpdateMessage(oldEntity, entity, GuessEntityName(repositories, entity.entityClass)));
      snapshot := oldEntity;
    }

    method OnPostDelete(entity: Entity)
      modifies publisher
      ensures publisher.log == old(publisher.log) + [DeleteMessage(entity, GuessEntityName(repositories, entity.entityClass))]
    {
      publisher.Publish(DeleteMessage(entity, GuessEntityName(repositories, entity.entityClass)));
    }

    /** The affected owner may be absent; naming it then fails before
        anything is published. */
    method OnPostUpdateCollection(owner: Entity?) returns (outcome: Outcome<ListenerFailure>)
      modifies publisher
      ensures owner == null ==> outcome == Fail(NullPointer) && publisher.log == old(publisher.log)
      ensures owner != null ==> outcome == Pass
      ensures owner != null ==>
        publisher.log == old(publisher.log) + [CollectionUpdateMessage(owner, GuessEntityName(repositories, owner.entityClass))]
    {
      if owner == null {
        return Fail(NullPointer);
      }
      publisher.Publish(CollectionUpdateMessage(owner, GuessEntityName(repositories, owner.entityClass)));
      outcome := Pass;
    }
  }

  /** Save a new entity, change one persistent property and save it again,
      then delete it: three messages, create, update and delete, in that
      order. One managed instance is handed to all three callbacks, as
      within a single persistence context; the update's old side shows the
      property as it was, its new side as it is. */
  method SaveUpdateDelete(listener: ContentGridPublisherEventListener, entity: Entity, persister: EntityPersister,
                          property: string, value: Value)
    requires DistinctNames(persister.propertyNames) && property in persister.propertyNames
    requires forall n :: n in persister.propertyNames ==> n in entity.properties
    modifies listener.publisher, entity
    ensures var before := |old(listener.publisher.log)|;
            var log := listener.publisher.log;
            && |log| == before + 3 && log[..before] == old(listener.publisher.log)
            && log[before].trigger == Create && log[before + 1].trigger == Update && log[before + 2].trigger == Delete
            && log[before].data == DataEntity(None, Some(entity))
            && log[before + 1].data.entity == Some(entity)
            && log[before + 2].data == DataEntity(Some(entity), None)
            && log[before + 1].data.oldEntity.Some?
            && log[before + 1].data.oldEntity.value != entity
            && property in log[before + 1].data.oldEntity.value.properties
            && log[before + 1].data.oldEntity.value.properties[property] == old(entity.properties[property])
    ensures entity.properties == old(entity.properties)[property := value]
  {
    listener.OnPostInsert(entity);
    var oldState := GetPropertyValues(persister, entity);
    entity.SetProperty(property, value);
    var snapshot := listener.OnPostUpdate(entity, persister, oldState);
    ghost var i :| 0 <= i < |persister.propertyNames| && persister.propertyNames[i] == property;
    PriorStatePersistent(entity.properties, persister.propertyNames, oldState, i);
    listener.OnPostDelete(entity);
  }
}
