/**
 * The T-SQL `CHAR NULL` parameter value: an immutable value holding one size. Two
 * instances of the same runtime type are equal exactly when their sizes are, the hash
 * code is the size's, and the value describes a `CHAR` input parameter whose value is
 * `DBNull`.
 */
module CharNull {

  /**
   * The size of a `CHAR` column. `TSqlCharSize` is not part of this model; it is
   * represented by the `int` it converts to when handed to the parameter.
   */
  datatype CharSize = CharSize(value: int)

  /**
   * The runtime type of a `TSqlCharNullValue` instance: the class itself, or one of its
   * subclasses (the class is not sealed), named by the subclass.
   */
  datatype RuntimeType = Exact | Subclass(name: string)

  /** A `TSqlCharNullValue` instance: its runtime type and its one field, `_size`. */
  datatype CharNullValue = CharNullValue(runtimeType: RuntimeType, size: CharSize)

  /**
   * The argument of `Equals(object)`: null, an instance of `TSqlCharNullValue` or of a
   * subclass, or an object of an unrelated class (whose runtime type is therefore
   * never that of a `TSqlCharNullValue`).
   */
  datatype Object = Null | Instance(value: CharNullValue) | Foreign(className: string)

  /** An object's runtime type differs from the receiver's: it is not an instance of the receiver's exact class. */
  predicate OtherRuntimeType(v: CharNullValue, obj: Object)
    requires !obj.Null?
  {
    !obj.Instance? || obj.value.runtimeType != v.runtimeType
  }

  /** The members of `System.Data.SqlDbType` that this model distinguishes. */
  datatype SqlDbType = Char | NChar | VarChar | NVarChar

  /** `System.Data.ParameterDirection`. */
  datatype ParameterDirection = Input | Output | InputOutput | ReturnValue

  /** `System.Data.DataRowVersion`. */
  datatype DataRowVersion = Original | Current | Proposed | Default

  /** A parameter's value: `DBNull.Value`, or any other value (not distinguished here). */
  datatype ParameterValue = DbNull | NonNull

  /** The arguments the parameter is constructed from, in the order the `SqlParameter` constructor takes them. */
  datatype SqlParameter = SqlParameter(
    name: string,
    dbType: SqlDbType,
    size: int,
    direction: ParameterDirection,
    isNullable: bool,
    precision: int,
    scale: int,
    sourceColumn: string,
    sourceVersion: DataRowVersion,
    value: ParameterValue)

  /** `p` describes a nullable `CHAR(size)` input parameter named `name` whose value is `DBNull`. */
  predicate IsCharNullParameter(p: SqlParameter, name: string, size: CharSize)
  {
    && p.name == name
    && p.dbType == Char
    && p.size == size.value
    && p.direction == Input
    && p.isNullable
    && p.precision == 0
    && p.scale == 0
    && p.sourceColumn == ""
    && p.sourceVersion == Default
    && p.value == DbNull
  }

  /** `ToSqlParameter`: the parameter describing this value. */
  function ToSqlParameter(v: CharNullValue, parameterName: string): (p: SqlParameter)
    ensures IsCharNullParameter(p, parameterName, v.size)
  {
    SqlParameter(parameterName, Char, v.size.value, Input, true, 0, 0, "", Default, DbNull)
  }

  /** `ToDbParameter`: the same parameter, seen through its base type. */
  function ToDbParameter(v: CharNullValue, parameterName: string): (p: SqlParameter)
    ensures IsCharNullParameter(p, parameterName, v.size)
    ensures p == ToSqlParameter(v, parameterName)
  {
    ToSqlParameter(v, parameterName)
  }

  /** The private, typed `Equals`: two instances are equal when their sizes are, whatever their runtime types. */
  function EqualsValue(v: CharNullValue, other: CharNullValue): (r: bool)
    ensures r <==> other.size == v.size
    ensures other.runtimeType == v.runtimeType ==> (r <==> other == v)
  {
    other.size == v.size
  }

  /** `Equals(object)`: false for null and for any object whose runtime type is not the receiver's. */
  function Equals(v: CharNullValue, obj: Object): (r: bool)
    ensures obj.Null? ==> !r
    ensures !obj.Null? && OtherRuntimeType(v, obj) ==> !r
    ensures obj.Instance? && obj.value.runtimeType == v.runtimeType ==> (r <==> obj.value.size == v.size)
  {
    match obj
    case Null => false
    case Foreign(_) => false
    case Instance(other) => other.runtimeType == v.runtimeType && EqualsValue(v, other)
  }

  /**
   * `GetHashCode`: the size's own hash code. How `TSqlCharSize` hashes is not part of
   * this model, so that hash is a parameter.
   */
  function GetHashCode(v: CharNullValue, sizeHash: CharSize -> int): (h: int)
    ensures h == sizeHash(v.size)
  {
    sizeHash(v.size)
  }

  /**
   * `Equals` holds exactly for an instance of the receiver's own runtime type and size,
   * and never for null or an object of another runtime type.
   */
  lemma EqualsIffSameSize(v: CharNullValue, obj: Object)
    ensures Equals(v, obj) <==> obj.Instance? && obj.value.runtimeType == v.runtimeType && obj.value.size == v.size
  {
  }

  /** `Equals` is reflexive. */
  lemma EqualsReflexive(v: CharNullValue)
    ensures Equals(v, Instance(v))
  {
  }

  /** `Equals` is symmetric between instances. */
  lemma EqualsSymmetric(v: CharNullValue, w: CharNullValue)
    ensures Equals(v, Instance(w)) == Equals(w, Instance(v))
  {
  }

  /** `Equals` is transitive between instances. */
  lemma EqualsTransitive(u: CharNullValue, v: CharNullValue, w: CharNullValue)
    requires Equals(u, Instance(v)) && Equals(v, Instance(w))
    ensures Equals(u, Instance(w))
  {
  }

  /** Equal instances have equal hash codes, whatever function of the size's value the size hashes by. */
  lemma HashConsistentWithEquals(v: CharNullValue, w: CharNullValue, sizeHash: CharSize -> int)
    requires Equals(v, Instance(w))
    ensures GetHashCode(v, sizeHash) == GetHashCode(w, sizeHash)
  {
  }

  /** The hash code depends on the size alone: instances of any runtime types with the same size hash alike. */
  lemma HashDependsOnlyOnSize(v: CharNullValue, w: CharNullValue, sizeHash: CharSize -> int)
    requires v.size == w.size
    ensures GetHashCode(v, sizeHash) == GetHashCode(w, sizeHash)
  {
  }

  /**
   * Between instances of the same runtime type, equality is exactly "describes the same
   * parameter"; across runtime types, the same parameter does not make them equal.
   */
  lemma EqualsIffSameParameter(v: CharNullValue, w: CharNullValue, parameterName: string)
    ensures Equals(v, Instance(w)) ==> ToSqlParameter(v, parameterName) == ToSqlParameter(w, parameterName)
    ensures v.runtimeType == w.runtimeType ==>
      (Equals(v, Instance(w)) <==> ToSqlParameter(v, parameterName) == ToSqlParameter(w, parameterName))
    ensures v.runtimeType != w.runtimeType ==> !Equals(v, Instance(w))
  {
  }
}
