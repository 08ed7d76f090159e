/** The representation of an attribute constraint in the blueprint of an
    application: a closed set of variants, each with a fixed type string, and
    the classification of a configured constraint into one of them. */
module ConstraintRepresentations {
  import opened Wrappers

  /** A configured constraint. `OtherConstraint` stands for every other kind,
      including kinds added later, and for a null constraint. */
  datatype ConstraintModel =
    | AllowedValuesConstraint(values: seq<string>)
    | RequiredConstraint
    | UniqueConstraint
    | OtherConstraint

  /** AttributeConstraintRepresentationModel and its three variants. */
  datatype AttributeConstraintRepresentation =
    | AllowedValuesRepresentation(values: seq<string>)
    | RequiredRepresentation
    | UniqueRepresentation

  /** The builder of the allowed-values variant; `values` is None until its
      setter is called. */
  datatype AllowedValuesBuilder = AllowedValuesBuilder(values: Option<seq<string>>)

  /** The builder's setter. */
  function WithValues(builder: AllowedValuesBuilder, values: seq<string>): (r: AllowedValuesBuilder)
    ensures r.values == Some(values)
  {
    builder.(values := Some(values))
  }

  /** build(): a list never set is the empty default. */
  function Build(builder: AllowedValuesBuilder): (r: AttributeConstraintRepresentation)
    ensures r.AllowedValuesRepresentation?
    ensures builder.values.None? ==> r.values == []
    ensures builder.values.Some? ==> r.values == builder.values.value
  {
    AllowedValuesRepresentation(if builder.values.Some? then builder.values.value else [])
  }

  /** allowedValues(values): the builder given exactly these values. */
  function AllowedValues(values: seq<string>): (r: AttributeConstraintRepresentation)
    ensures r == AllowedValuesRepresentation(values)
  {
    Build(WithValues(AllowedValuesBuilder(None), values))
  }

  /** from(constraint): each known kind maps to its own variant, carrying
      the allowed values over; any other kind maps to null. Never fails. */
  function From(constraint: ConstraintModel): (r: Option<AttributeConstraintRepresentation>)
    ensures r.None? <==> constraint.OtherConstraint?
    ensures constraint.AllowedValuesConstraint? ==> r == Some(AllowedValuesRepresentation(constraint.values))
    ensures constraint.RequiredConstraint? ==> r == Some(RequiredRepresentation)
    ensures constraint.UniqueConstraint? ==> r == Some(UniqueRepresentation)
  {
    match constraint
    case AllowedValuesConstraint(values) => Some(AllowedValues(values))
    case RequiredConstraint => Some(RequiredRepresentation)
    case UniqueConstraint => Some(UniqueRepresentation)
    case OtherConstraint => None
  }

  /** getType() of each variant. */
  function GetType(representation: AttributeConstraintRepresentation): (t: string)
    ensures t in {"allowed-values", "required", "unique"}
    ensures representation.AllowedValuesRepresentation? ==> t == "allowed-values"
    ensures representation.RequiredRepresentation? ==> t == "required"
    ensures representation.UniqueRepresentation? ==> t == "unique"
  {
    match representation
    case AllowedValuesRepresentation(_) => "allowed-values"
    case RequiredRepresentation => "required"
    case UniqueRepresentation => "unique"
  }

  /** The three type strings are pairwise distinct, so the type string
      determines the variant. */
  lemma GetTypeDeterminesVariant(a: AttributeConstraintRepresentation, b: AttributeConstraintRepresentation)
    ensures GetType(a) == GetType(b) <==>
              (a.AllowedValuesRepresentation? && b.AllowedValuesRepresentation?)
              || (a.RequiredRepresentation? && b.RequiredRepresentation?)
              || (a.UniqueRepresentation? && b.UniqueRepresentation?)
  {
  }

  /** The constraint a representation stands for. */
  function ToConstraint(representation: AttributeConstraintRepresentation): ConstraintModel {
    match representation
    case AllowedValuesRepresentation(values) => AllowedValuesConstraint(values)
    case RequiredRepresentation => RequiredConstraint
    case UniqueRepresentation => UniqueConstraint
  }

  /** Classification loses nothing: every representation is the image of its
      constraint, and every known constraint is recovered from its image. */
  lemma FromRoundTrip(representation: AttributeConstraintRepresentation, constraint: ConstraintModel)
    ensures From(ToConstraint(representation)) == Some(representation)
    ensures !constraint.OtherConstraint? ==> ToConstraint(From(constraint).value) == constraint
  {
  }
}
