# ContentGrid change events and association references, in Dafny

This project models four pieces of the ContentGrid Spring Boot starter and proves properties of them:

- **The persistence listener** (`ContentGridPublisherEventListener`). Every insert, update, delete and collection update of a managed entity becomes exactly one `ContentGridMessage`. A message holds a trigger, the pair of records before and after the change, and the logical entity name. Entities are objects that the persistence layer changes in place, so they are a class `Entity` with a map of bean properties. The publisher is a class holding the append-only log of messages it was handed. For an update, the listener builds a snapshot of the prior state in three steps. It makes a fresh instance of the entity's class. It copies the live entity's bean properties into it. Then it sets every persistent property back to the value the persistence layer captured before the change, one index at a time. The model proves that the snapshot holds the prior value for every persistent property and the live value for every other property, and that the live entity is left untouched. The entity name is the repository's declared item relation when that has text, and otherwise the class's simple name in lower case.
- **The payload transformer** (`EntityToPersistentEntityResourceTransformer`). It turns each side of a message into a resource representation through the assembler, keeps absent sides absent, and carries the trigger and entity name over unchanged.
- **The association controller** (`DelegatingRepositoryPropertyReferenceController`). These are the two GET handlers that follow a property of a resource. Each answers with a 302 redirect, a 404, or an exception. Both share the same frame: the property must be mapped and exported, GET must be supported, and the owner must exist. A collection without an id redirects to the target collection filtered on the owner. The model proves that this Location can be parsed back into its parts. A collection with an id redirects to its first element with that identifier.
- **The constraint classification** (`AttributeConstraintRepresentationModel.from`). It is a total map from configured constraint kinds to the three representation variants, with null for any other kind. Each variant has a fixed type string.

The framework collaborators are parameters or abstract values. These are the representation assembler (`toModel`), the self-link provider (`selfLink`), the identifier accessor (`identifier`), the repository registry and its annotations (`RepositoryInformation`), and the Querydsl bindings (`QuerydslSupport`).

The code and one of its tests disagree about one request. `InvoicingApplicationTests.java:434-440` expects GET /orders/{id}/promos to redirect to `promotions?orders={id}`. `Order.promos` is the owning side of a @ManyToMany, so it carries no @OneToMany. The controller reads `mappedBy` from the @OneToMany annotation at `DelegatingRepositoryPropertyReferenceController.java:88` without checking it for null. The model follows the code: that request ends in the `NullAnnotation` failure (`FollowCollectionWithoutOneToMany`). The handler that serves the request in the test may be one that is not part of this model.

Files: `wrappers.dfy` (Option, Result, Outcome), `messages.dfy` (the message and its four builders), `event_listener.dfy`, `payload_transformer.dfy`, `property_references.dfy`, `constraint_representations.dfy`.

## Model

| member | source | states |
|---|---|---|
| `Messages.InsertMessage` | contentgrid-spring-integration-events/src/main/java/com/contentgrid/spring/integration/events/ContentGridPublisherEventListener.java:65-68 | an insert message has trigger create, no old record, the inserted record as new, and is well-formed |
| `Messages.UpdateMessage` | contentgrid-spring-integration-events/src/main/java/com/contentgrid/spring/integration/events/ContentGridPublisherEventListener.java:78-80 | an update message has the snapshot as old record and the live record as new, with trigger update |
| `Messages.DeleteMessage` | contentgrid-spring-integration-events/src/main/java/com/contentgrid/spring/integration/events/ContentGridPublisherEventListener.java:85-88 | a delete message has the deleted record as old and nothing as new, with trigger delete |
| `Messages.CollectionUpdateMessage` | contentgrid-spring-integration-events/src/main/java/com/contentgrid/spring/integration/events/ContentGridPublisherEventListener.java:93-97 | a collection update is an update message whose old and new sides are both the owner |
| `EventListener.Entity.Instantiate` | contentgrid-spring-integration-events/src/main/java/com/contentgrid/spring/integration/events/ContentGridPublisherEventListener.java:74 | a fresh instance of the given class, with no property set yet |
| `EventListener.Entity.SetProperty` | integration-tests/integration-tests-spring/src/test/java/com/contentgrid/userapps/holmes/dcm/repository/DcmApiRepositoryIntegrationEventsTests.java:151 | a setter changes exactly one bean property |
| `EventListener.PriorStateKeys` | contentgrid-spring-integration-events/src/main/java/com/contentgrid/spring/integration/events/ContentGridPublisherEventListener.java:74-76 | the snapshot has the live entity's properties plus every persistent one |
| `EventListener.PriorStatePersistent` | contentgrid-spring-integration-events/src/main/java/com/contentgrid/spring/integration/events/ContentGridPublisherEventListener.java:76 | every persistent property of the snapshot equals its entry in the captured old state |
| `EventListener.PriorStateOther` | contentgrid-spring-integration-events/src/main/java/com/contentgrid/spring/integration/events/ContentGridPublisherEventListener.java:75 | every property that is not persistent keeps the live entity's value, and no other property appears |
| `EventListener.SetPropertyValues` | contentgrid-spring-integration-events/src/main/java/com/contentgrid/spring/integration/events/ContentGridPublisherEventListener.java:76 | writing the old state index by index leaves the target's properties equal to the prior-state overlay of what they were |
| `EventListener.GetPropertyValues` | contentgrid-spring-integration-events/src/main/java/com/contentgrid/spring/integration/events/ContentGridPublisherEventListener.java:76 | the captured state has one entry per persistent property, each the entity's value of that property |
| `EventListener.ToLowerCase` | contentgrid-spring-integration-events/src/main/java/com/contentgrid/spring/integration/events/ContentGridPublisherEventListener.java:107 | lower-casing keeps the length and lower-cases each character on its own |
| `EventListener.IsWhitespace` | contentgrid-spring-integration-events/src/main/java/com/contentgrid/spring/integration/events/ContentGridPublisherEventListener.java:106 | the characters `Character.isWhitespace` accepts: space, tab and newline are whitespace, the no-break spaces U+00A0, U+2007 and U+202F are not, and none lies above U+3000 |
| `EventListener.HasText` | contentgrid-spring-integration-events/src/main/java/com/contentgrid/spring/integration/events/ContentGridPublisherEventListener.java:106 | a string has text only when it is not empty; a string of whitespace only has none; a first character that is not whitespace is enough |
| `EventListener.GuessEntityName` | contentgrid-spring-integration-events/src/main/java/com/contentgrid/spring/integration/events/ContentGridPublisherEventListener.java:100-108 | the name has text unless it is the lower-cased simple name; any other name is exactly the item relation declared on the class's repository |
| `EventListener.GuessEntityNameDeclared` | contentgrid-spring-integration-events/src/main/java/com/contentgrid/spring/integration/events/ContentGridPublisherEventListener.java:101-107 | a declared item relation with text is the name; an empty or whitespace-only one falls back to the lower-cased simple name |
| `EventListener.GuessEntityNameFallback` | contentgrid-spring-integration-events/src/main/java/com/contentgrid/spring/integration/events/ContentGridPublisherEventListener.java:107 | the fallback name has the simple name's length, no upper-case letter, and is unchanged by lower-casing again |
| `EventListener.GuessEntityNameExamples` | contentgrid-spring-integration-events/src/main/java/com/contentgrid/spring/integration/events/ContentGridPublisherEventListener.java:100-108 | an alias "refunds" gives "refunds"; an unannotated class PromotionCampaign gives "promotioncampaign" |
| `EventListener.EventPublisher.Publish` | contentgrid-spring-integration-events/src/main/java/com/contentgrid/spring/integration/events/ContentGridPublisherEventListener.java:65 | publishing appends exactly the given message to the log |
| `EventListener.ContentGridPublisherEventListener.constructor` | contentgrid-spring-integration-events/src/main/java/com/contentgrid/spring/integration/events/ContentGridPublisherEventListener.java:35-40 | the listener keeps its publisher and repository registry |
| `EventListener.ContentGridPublisherEventListener.RequiresPostCommitHandling` | contentgrid-spring-integration-events/src/main/java/com/contentgrid/spring/integration/events/ContentGridPublisherEventListener.java:58-61 | post-commit handling is never required |
| `EventListener.ContentGridPublisherEventListener.RequiresPostCommitHanding` | contentgrid-spring-integration-events/src/main/java/com/contentgrid/spring/integration/events/ContentGridPublisherEventListener.java:53-56 | the misspelled variant answers the same as the correct one, false |
| `EventListener.ContentGridPublisherEventListener.OnPostInsert` | contentgrid-spring-integration-events/src/main/java/com/contentgrid/spring/integration/events/ContentGridPublisherEventListener.java:63-69 | exactly one message is appended: create, no old record, the entity as new, named after the entity's class |
| `EventListener.ContentGridPublisherEventListener.OnPostUpdate` | contentgrid-spring-integration-events/src/main/java/com/contentgrid/spring/integration/events/ContentGridPublisherEventListener.java:71-81 | exactly one update message is appended; its new side is the live entity, which stays unchanged; its old side is a fresh object of the same class whose properties are the prior-state overlay |
| `EventListener.ContentGridPublisherEventListener.OnPostDelete` | contentgrid-spring-integration-events/src/main/java/com/contentgrid/spring/integration/events/ContentGridPublisherEventListener.java:83-89 | exactly one message is appended: delete, the entity as old, no new record |
| `EventListener.ContentGridPublisherEventListener.OnPostUpdateCollection` | contentgrid-spring-integration-events/src/main/java/com/contentgrid/spring/integration/events/ContentGridPublisherEventListener.java:91-98 | with an owner, one update message with the owner on both sides, named from the owner; without one, a null-pointer failure and nothing published |
| `EventListener.SaveUpdateDelete` | integration-tests/integration-tests-spring/src/test/java/com/contentgrid/userapps/holmes/dcm/repository/DcmApiRepositoryIntegrationEventsTests.java:147-161 | with one managed instance handed to all three callbacks, as in a single persistence context, insert, change, update, delete publish exactly three messages in order create, update, delete; the update's old side shows the property as it was and its new side as it is |
| `PayloadTransformer.TransformPayload` | contentgrid-spring-integration-events/src/main/java/com/contentgrid/spring/integration/events/EntityToPersistentEntityResourceTransformer.java:20-30 | trigger and name are copied; each model is absent exactly when its side is absent, and is otherwise the assembler's model of that same side; the assembler need accept only the records present, and the trace of its calls has one entry per present side, only present records, the new record first and the old one last |
| `PayloadTransformer.TransformWellFormed` | contentgrid-spring-integration-events/src/main/java/com/contentgrid/spring/integration/events/EntityToPersistentEntityResourceTransformer.java:22-29 | a well-formed message gives a well-formed payload; the transformer asks the assembler once for create and delete, and twice for update, new record then old |
| `PayloadTransformer.TransformListenerMessages` | contentgrid-spring-integration-events/src/main/java/com/contentgrid/spring/integration/events/EntityToPersistentEntityResourceTransformer.java:29 | the exact payload of each of the four listener messages |
| `PayloadTransformer.TransformKeepsSides` | contentgrid-spring-integration-events/src/main/java/com/contentgrid/spring/integration/events/EntityToPersistentEntityResourceTransformer.java:29 | sides are never swapped or merged: with an injective assembler, equal payloads come from equal messages |
| `PropertyReferences.DoWithReferencedProperty` | contentgrid-spring-data-rest/src/main/java/org/springframework/data/rest/webmvc/DelegatingRepositoryPropertyReferenceController.java:229-254 | an unknown or unexported mapping is ResourceNotFound whatever else holds; then an unsupported GET fails; a missing owner is ResourceNotFound; the handler is applied only to a found owner |
| `PropertyReferences.MapValue` | contentgrid-spring-data-rest/src/main/java/org/springframework/data/rest/webmvc/DelegatingRepositoryPropertyReferenceController.java:275-277 | a null property value gives nothing; otherwise the result of the mapping function |
| `PropertyReferences.IsQuerydslRepository` | contentgrid-spring-data-rest/src/main/java/org/springframework/data/rest/webmvc/DelegatingRepositoryPropertyReferenceController.java:89-92 | the target is a Querydsl repository only when it has a repository and Querydsl is present; without Querydsl it never is |
| `PropertyReferences.CollectionFilter` | contentgrid-spring-data-rest/src/main/java/org/springframework/data/rest/webmvc/DelegatingRepositoryPropertyReferenceController.java:94-100 | a filter exists only for a Querydsl repository with a bindings factory, and then it is the binding found for the inverse property |
| `PropertyReferences.CollectionLocation` | contentgrid-spring-data-rest/src/main/java/org/springframework/data/rest/webmvc/DelegatingRepositoryPropertyReferenceController.java:102 | the redirect Location `href?filter=id` splits back into the collection link, the filter and the owner id, when the link has no `?` and the filter no `=` |
| `PropertyReferences.FollowPropertyHandler` | contentgrid-spring-data-rest/src/main/java/org/springframework/data/rest/webmvc/DelegatingRepositoryPropertyReferenceController.java:84-118 | a map fails with UnsupportedOperation; a collection fails exactly when it has no @OneToMany, with a null-pointer failure; otherwise a collection redirects exactly when the target repository is Querydsl, a bindings factory exists and the inverse property has a binding, to the filtered collection, and is 404 otherwise; a to-one never fails and redirects to its target's self link exactly when the target is not null |
| `PropertyReferences.FollowPropertyReference` | contentgrid-spring-data-rest/src/main/java/org/springframework/data/rest/webmvc/DelegatingRepositoryPropertyReferenceController.java:80-121 | a normal answer needs an exported mapping, supported GET and an existing owner; UnsupportedOperation happens exactly for a map property of an existing owner |
| `PropertyReferences.FollowCollectionWithoutOneToMany` | contentgrid-spring-data-rest/src/main/java/org/springframework/data/rest/webmvc/DelegatingRepositoryPropertyReferenceController.java:86-88 | a collection association without @OneToMany fails with a null pointer even when the mapping is exported, GET is supported and the owner exists |
| `PropertyReferences.FindById` | contentgrid-spring-data-rest/src/main/java/org/springframework/data/rest/webmvc/DelegatingRepositoryPropertyReferenceController.java:147-159 | nothing is found exactly when every element has a non-null identifier different from the id; a found element is in the collection and has that identifier; the search fails with NullIdentifier exactly when some element with a null identifier comes before every match |
| `PropertyReferences.FindByIdFirst` | contentgrid-spring-data-rest/src/main/java/org/springframework/data/rest/webmvc/DelegatingRepositoryPropertyReferenceController.java:154-159 | the search returns the first matching element when no element before it has a null identifier |
| `PropertyReferences.FollowPropertyByIdHandler` | contentgrid-spring-data-rest/src/main/java/org/springframework/data/rest/webmvc/DelegatingRepositoryPropertyReferenceController.java:141-192 | a map fails with UnsupportedOperation; a null collection is 404; a collection redirects to the self link of an element with that identifier, is 404 exactly when no element has it, and fails with NullIdentifier exactly when a null identifier comes before every match; a to-one redirects to its target's self link exactly when the target exists and has that identifier, and fails exactly when the target's identifier is null |
| `PropertyReferences.FollowPropertyReferenceById` | contentgrid-spring-data-rest/src/main/java/org/springframework/data/rest/webmvc/DelegatingRepositoryPropertyReferenceController.java:136-195 | a normal answer needs an exported mapping, supported GET and an existing owner; UnsupportedOperation happens exactly for a map property of an existing owner |
| `PropertyReferences.FollowCollectionByIdFirstMatch` | contentgrid-spring-data-rest/src/main/java/org/springframework/data/rest/webmvc/DelegatingRepositoryPropertyReferenceController.java:143-170 | the redirect goes to the self link of the first element whose identifier is the requested id |
| `ConstraintRepresentations.WithValues` | contentgrid-spring-data-rest/src/main/java/com/contentgrid/spring/data/rest/webmvc/blueprint/AttributeConstraintRepresentationModel.java:34 | the builder's setter records the given values |
| `ConstraintRepresentations.Build` | contentgrid-spring-data-rest/src/main/java/com/contentgrid/spring/data/rest/webmvc/blueprint/AttributeConstraintRepresentationModel.java:46-52 | a built representation is the allowed-values variant; values never set default to the empty list |
| `ConstraintRepresentations.AllowedValues` | contentgrid-spring-data-rest/src/main/java/com/contentgrid/spring/data/rest/webmvc/blueprint/AttributeConstraintRepresentationModel.java:32-36 | allowed-values carries exactly the given list |
| `ConstraintRepresentations.From` | contentgrid-spring-data-rest/src/main/java/com/contentgrid/spring/data/rest/webmvc/blueprint/AttributeConstraintRepresentationModel.java:19-30 | the result is null exactly for other kinds; allowed values map to allowed values with the same list, required to required, unique to unique |
| `ConstraintRepresentations.GetType` | contentgrid-spring-data-rest/src/main/java/com/contentgrid/spring/data/rest/webmvc/blueprint/AttributeConstraintRepresentationModel.java:54-75 | allowed values have type "allowed-values", required "required", unique "unique", and no other string occurs |
| `ConstraintRepresentations.GetTypeDeterminesVariant` | contentgrid-spring-data-rest/src/main/java/com/contentgrid/spring/data/rest/webmvc/blueprint/AttributeConstraintRepresentationModel.java:55-75 | the three type strings are pairwise distinct: equal types means the same variant |
| `ConstraintRepresentations.FromRoundTrip` | contentgrid-spring-data-rest/src/main/java/com/contentgrid/spring/data/rest/webmvc/blueprint/AttributeConstraintRepresentationModel.java:19-30 | classification loses nothing: every representation comes from its constraint, and every known constraint is recovered from its representation |

## Left out

- Listener registration (`afterPropertiesSet`, ContentGridPublisherEventListener.java:42-51) is left out. It is service-registry plumbing with no logic of its own.
- The publisher channel is only an append to a log. The Spring Integration flow after it is not modelled: header enrichment with the application and deployment ids, JSON serialization, and the fan-out to message handlers in EventsAutoConfiguration.java.
- Bean copying through reflection is a copy of the whole property map between two instances of one class. A property without a getter or setter on the class is not singled out.
- EventListener.ContentGridPublisherEventListener.OnPostUpdate: requires the captured old state to have one entry per persistent property, as the persistence layer always supplies it.
- EventListener.ToLowerCase: lower-cases ASCII letters as Java does in a locale such as English or ROOT. `toLowerCase()` at ContentGridPublisherEventListener.java:107 uses the JVM's default locale, and that dependence is not modelled; in a Turkish locale, for example, `I` becomes U+0131 and a class `Invoice` is named "ınvoice". Non-ASCII letters are not lower-cased either.
- A collection update is published with the trigger `update`; there is no separate collection-update trigger. No builder rejects a message with both sides absent; the code has no such check.
- The annotation search on the repository interface and its super-interfaces is abstracted into `RepositoryInformation.restResource`. Proxy subclasses of entity classes are not modelled.
- PayloadTransformer.TransformPayload: the assembler is a pure function of the record. Assembly errors and the assembler's reading of live entity state are not modelled.
- The controller's delegate methods (DelegatingRepositoryPropertyReferenceController.java:124-128, 197-227) are left out. They only forward to a class that is not part of this model.
- The Location is a string. `URI.create` rejecting an ill-formed string is not modelled.
- `verifySupportedMethod` is a boolean input. The rules it applies belong to the framework.
- Entity links, self links, identifiers and Querydsl bindings are parameters with no rules of their own.
- A null list passed to `allowedValues` is not modelled; lists are never null here.
- EventListener.SaveUpdateDelete: one instance goes through all three callbacks. Merging a detached entity, where the persistence layer raises the update and delete events on other managed instances, is not modelled.
- Audit logging, data holders, configuration classes and test fixtures are left out. They have no behaviour of their own to model.
- Transactions and threading are left out. The listener runs synchronously inside the write transaction.
