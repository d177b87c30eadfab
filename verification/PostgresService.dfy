/** The constant table of the PostgreSQL service: the numeric type names, the
    integer bounds of each bounded type (after section 8.1, Numeric Types, of the
    PostgreSQL documentation) and the one-character boolean literals. */
module PostgresService {

  const NUMERIC_TYPES: seq<string> :=
    ["smallint", "integer", "bigint", "decimal", "numeric", "real", "double precision",
     "smallserial", "serial", "bigserial"]

  const INTEGER_TYPES: seq<string> :=
    ["smallint", "integer", "bigint", "smallserial", "serial", "bigserial"]

  const SMALLINT_MIN: int := -32768
  const SMALLINT_MAX: int := 32767

  const INTEGER_MIN: int := -2147483648
  const INTEGER_MAX: int := 2147483647

  /** Narrowed on purpose to eighteen nines: the true 64-bit bounds
      -9223372036854775808 and 9223372036854775807 are not used. */
  const BIGINT_MIN: int := -999999999999999999
  const BIGINT_MAX: int := 999999999999999999

  const SMALLSERIAL_MIN: int := 1
  const SMALLSERIAL_MAX: int := SMALLINT_MAX

  const SERIAL_MIN: int := SMALLSERIAL_MIN
  const SERIAL_MAX: int := INTEGER_MAX

  const BIGSERIAL_MIN: int := SMALLSERIAL_MIN
  const BIGSERIAL_MAX: int := BIGINT_MAX

  const BOOLEAN_FALSE: string := "f"
  const BOOLEAN_TRUE: string := "t"

  /** Every integer type is a numeric type, and the numeric types that are not
      integer types are exactly the four non-integral ones. */
  lemma IntegerTypesAreNumeric()
    ensures forall t :: t in INTEGER_TYPES ==> t in NUMERIC_TYPES
    ensures forall t :: t in NUMERIC_TYPES && t !in INTEGER_TYPES <==>
      t in ["decimal", "numeric", "real", "double precision"]
  {
  }

  /** Each bounded range is non-empty and the signed ranges nest:
      smallint inside integer inside bigint. */
  lemma BoundsNest()
    ensures SMALLINT_MIN < SMALLINT_MAX && INTEGER_MIN < INTEGER_MAX && BIGINT_MIN < BIGINT_MAX
    ensures SMALLSERIAL_MIN < SMALLSERIAL_MAX && SERIAL_MIN < SERIAL_MAX && BIGSERIAL_MIN < BIGSERIAL_MAX
    ensures INTEGER_MIN < SMALLINT_MIN && SMALLINT_MAX < INTEGER_MAX
    ensures BIGINT_MIN < INTEGER_MIN && INTEGER_MAX < BIGINT_MAX
  {
  }

  /** Serial types start at 1 and share the maximum of their signed counterpart;
      so each serial range lies inside its signed range. */
  lemma SerialBounds()
    ensures SMALLSERIAL_MIN == 1 && SERIAL_MIN == 1 && BIGSERIAL_MIN == 1
    ensures SMALLSERIAL_MAX == SMALLINT_MAX && SERIAL_MAX == INTEGER_MAX && BIGSERIAL_MAX == BIGINT_MAX
    ensures SMALLINT_MIN < SMALLSERIAL_MIN && INTEGER_MIN < SERIAL_MIN && BIGINT_MIN < BIGSERIAL_MIN
  {
  }

  /** The smallint and integer bounds are the signed 16- and 32-bit ranges; the
      bigint bounds are symmetric, are the largest eighteen-digit decimals, and
      lie strictly inside the signed 64-bit range. */
  lemma BigintNarrowed()
    ensures SMALLINT_MIN == -0x8000 && SMALLINT_MAX == 0x7FFF
    ensures INTEGER_MIN == -0x8000_0000 && INTEGER_MAX == 0x7FFF_FFFF
    ensures BIGINT_MIN == -BIGINT_MAX && BIGINT_MAX == 1_000_000_000_000_000_000 - 1
    ensures -0x8000_0000_0000_0000 < BIGINT_MIN && BIGINT_MAX < 0x7FFF_FFFF_FFFF_FFFF
  {
  }

  /** The boolean literals are single, distinct characters. */
  lemma BooleanLiterals()
    ensures BOOLEAN_TRUE == "t" && BOOLEAN_FALSE == "f"
    ensures |BOOLEAN_TRUE| == 1 && |BOOLEAN_FALSE| == 1 && BOOLEAN_TRUE != BOOLEAN_FALSE
  {
  }
}
