/** The controller that follows an association of a resource,
    GET /{repository}/{id}/{property} and GET /{repository}/{id}/{property}/{propertyId},
    answering with a redirect to the associated resource or an error.

    The framework collaborators are parameters: the self link of a target
    record (`selfLink`), the string form of its identifier (`identifier`,
    `None` when the identifier is null), and what is known about the target
    type's repository and query bindings (`QuerydslSupport`). */
module PropertyReferences {
  import opened Wrappers

  /** The exceptions a request can end with. */
  datatype Failure =
    | ResourceNotFound        // ResourceNotFoundException
    | UnsupportedOperation    // UnsupportedOperationException
    | MethodNotSupported      // the resource does not support GET on this property
    | NullIdentifier          // Objects.requireNonNull on a null identifier
    | NullAnnotation          // NullPointerException: a collection without @OneToMany has no mappedBy to read

  /** The HTTP answers: 302 with a Location header, or 404. */
  datatype Response = Found(location: string) | NotFound

  type Answer = Result<Response, Failure>

  /** The resource mapping of the requested property. */
  datatype PropertyMapping = PropertyMapping(exported: bool)

  /** The requested property of the owner that was found, read through its
      property accessor; an absent value is a null property. `mappedBy` is
      the attribute of the collection's @OneToMany annotation, `None` when the
      association carries none (a @ManyToMany, say). */
  datatype ReferencedProperty<T> =
    | CollectionLike(mappedBy: Option<string>, elements: Option<seq<T>>)
    | MapLike
    | ToOne(target: Option<T>)

  /** The repository registered for the target type of a collection. */
  datatype TargetRepository = TargetRepository(isQuerydslPredicateExecutor: bool)

  /** Everything the collection redirect consults about the target type: its
      collection resource link, its repository, whether Querydsl is on the
      class path, whether a bindings factory is available, and the request
      parameter bound to a property path (findPathBindingFor). */
  datatype QuerydslSupport = QuerydslSupport(
    collectionHref: string,
    targetRepository: Option<TargetRepository>,
    querydslPresent: bool,
    bindingsFactoryAvailable: bool,
    pathBindingFor: string -> Option<string>)

  /** The target type's repository is a Querydsl one; false without a repository. */
  predicate IsQuerydslRepository(support: QuerydslSupport)
    ensures IsQuerydslRepository(support) ==> support.targetRepository.Some? && support.querydslPresent
    ensures !support.querydslPresent ==> !IsQuerydslRepository(support)
  {
    match support.targetRepository
    case None => false
    case Some(repository) => support.querydslPresent && repository.isQuerydslPredicateExecutor
  }

  /** The request parameter that filters the target collection by its owner,
      when the collection redirect is possible at all. */
  function CollectionFilter(support: QuerydslSupport, mappedBy: string): (filter: Option<string>)
    ensures filter.Some? ==> IsQuerydslRepository(support) && support.bindingsFactoryAvailable
    ensures IsQuerydslRepository(support) && support.bindingsFactoryAvailable ==> filter == support.pathBindingFor(mappedBy)
  {
    if IsQuerydslRepository(support) && support.bindingsFactoryAvailable
    then support.pathBindingFor(mappedBy)
    else None
  }

  /** The Location of the collection redirect: the collection resource
      filtered on the owner's id. It can be read back: a collection link
      without a query and a filter name without `=` come back out unchanged,
      and so does the id. */
  function CollectionLocation(href: string, filter: string, id: string): (location: string)
    ensures '?' !in href && '=' !in filter ==> ParseCollectionLocation(location) == Some((href, filter, id))
  {
    if '?' !in href && '=' !in filter then ParsesBack(href, filter, id); href + "?" + filter + "=" + id
    else href + "?" + filter + "=" + id
  }

  /** The position of the first `c` in `s`, or |s| when there is none. */
  function IndexOf(s: string, c: char): (k: nat)
    ensures k <= |s|
    ensures forall j :: 0 <= j < k ==> s[j] != c
    ensures k < |s| ==> s[k] == c
  {
    if s == [] then 0
    else if s[0] == c then 0
    else 1 + IndexOf(s[1..], c)
  }

  /** Splits a collection Location back into the collection link, the filter
      parameter and the id, at the first `?` and the first `=` after it. */
  function ParseCollectionLocation(location: string): Option<(string, string, string)> {
    var q := IndexOf(location, '?');
    if q == |location| then None
    else
      var query := location[q + 1..];
      var e := IndexOf(query, '=');
      if e == |query| then None
      else Some((location[..q], query[..e], query[e + 1..]))
  }

  /** The first `c` in `a + [c] + b` is the one after `a`, when `a` has none. */
  lemma {:induction false} IndexOfAfter(a: string, c: char, b: string)
    requires c !in a
    ensures IndexOf(a + [c] + b, c) == |a|
  {
    if a != [] {
      assert (a + [c] + b)[1..] == a[1..] + [c] + b;
      IndexOfAfter(a[1..], c, b);
    }
  }

  /** The split at the first `?` and the first `=` after it undoes the
      concatenation, given no earlier `?` or `=` to split at. */
  lemma ParsesBack(href: string, filter: string, id: string)
    requires '?' !in href && '=' !in filter
    ensures ParseCollectionLocation(href + "?" + filter + "=" + id) == Some((href, filter, id))
  {
    var location := href + "?" + filter + "=" + id;
    var rest := filter + "=" + id;
    assert location == href + ['?'] + rest;
    IndexOfAfter(href, '?', rest);
    assert location[|href| + 1..] == rest;
    assert rest == filter + ['='] + id;
    IndexOfAfter(filter, '=', id);
    assert location[..|href|] == href;
    assert rest[..|filter|] == filter && rest[|filter| + 1..] == id;
  }

  /** Optional.ofNullable(value).map(f), where `f` may itself return null. */
  function MapValue<V, U>(value: Option<V>, f: V -> Option<U>): (r: Option<U>)
    ensures value.None? ==> r.None?
    ensures value.Some? ==> r == f(value.value)
  {
    match value
    case None => None
    case Some(v) => f(v)
  }

  /** The common frame of both GET handlers: the property must be mapped and
      exported, GET must be supported on it, and the owner must exist; only
      then is the handler applied, to the owner's property. */
  function DoWithReferencedProperty<T>(mapping: Option<PropertyMapping>, getSupported: bool,
                                       owner: Option<ReferencedProperty<T>>,
                                       handler: ReferencedProperty<T> -> Answer): (r: Answer)
    ensures (mapping.None? || !mapping.value.exported) ==> r == Err(ResourceNotFound)
    ensures mapping.Some? && mapping.value.exported && !getSupported ==> r == Err(MethodNotSupported)
    ensures mapping.Some? && mapping.value.exported && getSupported ==>
              r == if owner.None? then Err(ResourceNotFound) else handler(owner.value)
  {
    if mapping.None? || !mapping.value.exported then Err(ResourceNotFound)
    else if !getSupported then Err(MethodNotSupported)
    else match owner
      case None => Err(ResourceNotFound)
      case Some(property) => handler(property)
  }

  /** The handler of GET /{repository}/{id}/{property}. A collection redirects
      to the target collection filtered on the owner's id when the target has
      a Querydsl repository and a binding for the inverse property, and is 404
      otherwise; a map is not supported; a to-one association redirects to the
      target's self link, and is 404 when it is null. Reading `mappedBy` is the
      first thing done for a collection, and it fails when the association has
      no @OneToMany. */
  function FollowPropertyHandler<T>(property: ReferencedProperty<T>, id: string, support: QuerydslSupport,
                                    selfLink: T -> string): (r: Answer)
    ensures property.MapLike? <==> r == Err(UnsupportedOperation)
    ensures r.Err? ==> property.MapLike? || property.CollectionLike?
    ensures property.CollectionLike? ==> (r.Err? <==> property.mappedBy.None?)
    ensures property.CollectionLike? && property.mappedBy.None? ==> r == Err(NullAnnotation)
    ensures property.CollectionLike? ==>
              (r.Ok? && r.value.Found? <==>
                 property.mappedBy.Some? && IsQuerydslRepository(support) && support.bindingsFactoryAvailable
                 && support.pathBindingFor(property.mappedBy.value).Some?)
    ensures property.CollectionLike? && r.Ok? && r.value.Found? ==>
              r.value.location == CollectionLocation(support.collectionHref, support.pathBindingFor(property.mappedBy.value).value, id)
    ensures property.ToOne? ==> (r.Ok? && r.value.Found? <==> property.target.Some?)
    ensures property.ToOne? && property.target.Some? ==> r == Ok(Found(selfLink(property.target.value)))
  {
    match property
    case CollectionLike(None, _) => Err(NullAnnotation)
    case CollectionLike(Some(mappedBy), _) =>
      (match CollectionFilter(support, mappedBy)
       case Some(filter) => Ok(Found(CollectionLocation(support.collectionHref, filter, id)))
       case None => Ok(NotFound))
    case MapLike => Err(UnsupportedOperation)
    case ToOne(target) =>
      (match MapValue(target, (t: T) => Some(selfLink(t)))
       case Some(link) => Ok(Found(link))
       case None => Ok(NotFound))
  }

  /** GET /{repository}/{id}/{property}. */
  function FollowPropertyReference<T>(mapping: Option<PropertyMapping>, getSupported: bool,
                                      owner: Option<ReferencedProperty<T>>, id: string,
                                      support: QuerydslSupport, selfLink: T -> string): (r: Answer)
    ensures r.Ok? ==> mapping.Some? && mapping.value.exported && getSupported && owner.Some?
    ensures r == Err(UnsupportedOperation) <==>
              mapping.Some? && mapping.value.exported && getSupported && owner.Some? && owner.value.MapLike?
    ensures r.Ok? && r.value.Found? ==> !owner.value.MapLike?
  {
    DoWithReferencedProperty(mapping, getSupported, owner, (p: ReferencedProperty<T>) => FollowPropertyHandler(p, id, support, selfLink))
  }

  /** A collection association without @OneToMany, such as the owning side
      of a @ManyToMany, ends in a null-pointer failure even when the mapping
      is exported, GET is supported and the owner exists. */
  lemma FollowCollectionWithoutOneToMany<T>(elements: Option<seq<T>>, id: string, support: QuerydslSupport,
                                            selfLink: T -> string)
    ensures FollowPropertyReference(Some(PropertyMapping(true)), true, Some(CollectionLike(None, elements)), id, support, selfLink)
            == Err(NullAnnotation)
  {
  }

  /** The first element whose identifier reads `propertyId`, looked at in
      order. A null identifier met before any match ends the search with an
      exception; elements after the match are never looked at. */
  function FindById<T>(elements: seq<T>, propertyId: string, identifier: T -> Option<string>): (r: Result<Option<T>, Failure>)
    ensures r == Ok(None) <==>
              forall k :: 0 <= k < |elements| ==> identifier(elements[k]).Some? && identifier(elements[k]).value != propertyId
    ensures r.Ok? && r.value.Some? ==> r.value.value in elements && identifier(r.value.value) == Some(propertyId)
    ensures r.Err? ==> r.error == NullIdentifier
    ensures r.Err? <==>
              exists k :: 0 <= k < |elements| && identifier(elements[k]).None?
                && forall j :: 0 <= j < k ==> identifier(elements[j]) != Some(propertyId)
  {
    if elements == [] then Ok(None)
    else match identifier(elements[0])
      case None => Err(NullIdentifier)
      case Some(elementId) =>
        if elementId == propertyId then Ok(Some(elements[0]))
        else
          var rest := FindById(elements[1..], propertyId, identifier);
          assert forall k :: 1 <= k < |elements| ==> elements[k] == elements[1..][k - 1];
          rest
  }

  /** The element found is the first match: every element before it has an
      identifier, and a different one. */
  lemma {:induction false} FindByIdFirst<T>(elements: seq<T>, propertyId: string, identifier: T -> Option<string>, k: nat)
    requires k < |elements| && identifier(elements[k]) == Some(propertyId)
    requires forall j :: 0 <= j < k ==> identifier(elements[j]).Some? && identifier(elements[j]).value != propertyId
    ensures FindById(elements, propertyId, identifier) == Ok(Some(elements[k]))
  {
    if k > 0 {
      FindByIdFirst(elements[1..], propertyId, identifier, k - 1);
    }
  }

  /** The handler of GET /{repository}/{id}/{property}/{propertyId}. A
      collection redirects to the self link of its first element with that
      identifier, and is 404 when there is none or the collection is null; a
      map is not supported; a to-one association redirects to its target's
      self link only when the target's identifier is `propertyId`, and is 404
      otherwise. */
  function FollowPropertyByIdHandler<T>(property: ReferencedProperty<T>, propertyId: string,
                                        identifier: T -> Option<string>, selfLink: T -> string): (r: Answer)
    ensures property.MapLike? <==> r == Err(UnsupportedOperation)
    ensures r.Err? ==> property.MapLike? || r.error == NullIdentifier
    ensures property.CollectionLike? && property.elements.None? ==> r == Ok(NotFound)
    ensures property.CollectionLike? && property.elements.Some? && r.Ok? && r.value.Found? ==>
              exists e :: e in property.elements.value && identifier(e) == Some(propertyId) && r.value.location == selfLink(e)
    ensures property.CollectionLike? && property.elements.Some? ==>
              (r == Ok(NotFound) <==>
                 forall k :: 0 <= k < |property.elements.value| ==>
                   identifier(property.elements.value[k]).Some? && identifier(property.elements.value[k]).value != propertyId)
    ensures property.ToOne? ==>
              (r.Ok? && r.value.Found? <==> property.target.Some? && identifier(property.target.value) == Some(propertyId))
    ensures property.ToOne? && r.Ok? && r.value.Found? ==> r.value.location == selfLink(property.target.value)
    ensures property.ToOne? && r.Err? ==> property.target.Some? && identifier(property.target.value).None?
    ensures property.ToOne? && property.target.Some? && identifier(property.target.value).None? ==> r == Err(NullIdentifier)
    ensures property.CollectionLike? && property.elements.Some? ==>
              (r.Err? <==>
                 exists k :: 0 <= k < |property.elements.value| && identifier(property.elements.value[k]).None?
                   && forall j :: 0 <= j < k ==> identifier(property.elements.value[j]) != Some(propertyId))
  {
    match property
    case CollectionLike(_, elements) =>
      (match MapValue(elements, (items: seq<T>) => Some(items))
       case None => Ok(NotFound)
       case Some(items) =>
         match FindById(items, propertyId, identifier)
         case Err(failure) => Err(failure)
         case Ok(None) => Ok(NotFound)
         case Ok(Some(element)) => Ok(Found(selfLink(element))))
    case MapLike => Err(UnsupportedOperation)
    case ToOne(target) =>
      (match target
       case None => Ok(NotFound)
       case Some(t) =>
         match identifier(t)
         case None => Err(NullIdentifier)
         case Some(targetId) => if targetId == propertyId then Ok(Found(selfLink(t))) else Ok(NotFound))
  }

  /** GET /{repository}/{id}/{property}/{propertyId}. */
  function FollowPropertyReferenceById<T>(mapping: Option<PropertyMapping>, getSupported: bool,
                                          owner: Option<ReferencedProperty<T>>, propertyId: string,
                                          identifier: T -> Option<string>, selfLink: T -> string): (r: Answer)
    ensures r.Ok? ==> mapping.Some? && mapping.value.exported && getSupported && owner.Some?
    ensures r == Err(UnsupportedOperation) <==>
              mapping.Some? && mapping.value.exported && getSupported && owner.Some? && owner.value.MapLike?
    ensures r.Ok? && r.value.Found? ==> !owner.value.MapLike?
  {
    DoWithReferencedProperty(mapping, getSupported, owner,
      (p: ReferencedProperty<T>) => FollowPropertyByIdHandler(p, propertyId, identifier, selfLink))
  }

  /** With an id, a collection redirects to the self link of the first
      element carrying that id, provided no element before it has a null id. */
  lemma FollowCollectionByIdFirstMatch<T>(elements: seq<T>, mappedBy: Option<string>, propertyId: string,
                                          identifier: T -> Option<string>, selfLink: T -> string, k: nat)
    requires k < |elements| && identifier(elements[k]) == Some(propertyId)
    requires forall j :: 0 <= j < k ==> identifier(elements[j]).Some? && identifier(elements[j]).value != propertyId
    ensures FollowPropertyByIdHandler(CollectionLike(mappedBy, Some(elements)), propertyId, identifier, selfLink)
            == Ok(Found(selfLink(elements[k])))
  {
    FindByIdFirst(elements, propertyId, identifier, k);
  }
}
