/** The gold entity class: a collectible whose value is read from the field `Value`. */
module GoldClass {
  import opened Wrappers
  import opened Numeric
  import opened Json
  import opened ParseFields

  /** The level-file type name of gold. */
  const GOLD_ID: string := "Gold"

  const VALUE_FIELD: string := "Value"

  /** A gold pile worth `value`, an i32. */
  datatype Gold = Gold(value: int)

  /**
   * `Gold::parse`. A missing `Value`, a null one or one that is not a number
   * is `InvalidParse`; a number that is not an i64 panics; otherwise the
   * number is cast to i32, keeping its low 32 bits.
   */
  function Parse(fields: FieldBag): (r: Parsed<Gold>)
    ensures VALUE_FIELD !in fields ==> r == Err(INVALID_PARSE)
    ensures VALUE_FIELD in fields && !(fields[VALUE_FIELD].Some? && fields[VALUE_FIELD].value.Num?)
            ==> r == Err(INVALID_PARSE)
    ensures r.Panic? <==> VALUE_FIELD in fields && fields[VALUE_FIELD].Some? && fields[VALUE_FIELD].value.Num?
                          && AsI64(fields[VALUE_FIELD].value.n).None?
    ensures VALUE_FIELD in fields && fields[VALUE_FIELD].Some? && fields[VALUE_FIELD].value.Num?
            && AsI64(fields[VALUE_FIELD].value.n).Some?
            ==> r == Ok(Gold(AsI32(AsI64(fields[VALUE_FIELD].value.n).value)))
    ensures r.Ok? ==> InI32(r.value.value)
    ensures r.Ok? ==> exists i :: fields[VALUE_FIELD] == Some(Num(Int(i))) && InI64(i) && r.value.value == AsI32(i)
  {
    if VALUE_FIELD !in fields then Err(INVALID_PARSE)
    else match fields[VALUE_FIELD]
      case Some(Num(n)) =>
        (match AsI64(n)
         case Some(i) => Ok(Gold(AsI32(i)))
         case None => Panic)
      case _ => Err(INVALID_PARSE)
  }

  /** The field bag a level file would hold for a gold pile. */
  function Fields(g: Gold): FieldBag {
    map[VALUE_FIELD := Some(Num(Int(g.value)))]
  }

  /** Every i32 value survives writing it out and parsing it back. */
  lemma ParseFieldsRoundTrip(g: Gold)
    requires InI32(g.value)
    ensures Parse(Fields(g)) == Ok(g)
  {
    AsI32OfI32(g.value);
  }

  /** Two i64 values 2^32 apart parse to the same gold: the cast keeps only the low 32 bits. */
  lemma ParseWraps(i: int)
    requires InI64(i) && InI64(i + TWO_POW_32)
    ensures Parse(map[VALUE_FIELD := Some(Num(Int(i + TWO_POW_32)))]) == Parse(map[VALUE_FIELD := Some(Num(Int(i)))])
  {
    AsI32Periodic(i, 1);
  }
}
