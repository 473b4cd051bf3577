# Projac projection builder and the T-SQL `CHAR NULL` parameter value

This project models two parts of Projac in Dafny.

1. **`SqlProjectionBuilder`** (module `Projection`, file `projection_builder.dfy`) is a fluent,
   persistent registry of `(message type, projector)` handler entries. The model is a datatype
   `Builder` over `seq<Handler>`. Each `When<TMessage>` overload becomes a function that returns
   `Result<Builder, Error>`:
   - a null handler (`None`) yields `Failure(ArgumentNull("handler"))`;
   - any other handler yields a new builder whose entries are the receiver's entries plus exactly
     one appended entry.

   `typeof(TMessage)` becomes an opaque type token `Ty`. A message is a pair of its type token and
   an opaque body. The cast `(TMessage) message` inside each stored projector becomes the
   projector's precondition that the message carries the entry's token. Commands are an opaque
   type `Cmd`.
2. **`TSqlCharNullValue`** (module `CharNull`, file `char_null_value.dfy`) is an immutable value
   holding one `TSqlCharSize`. The model covers:
   - its typed and untyped `Equals`;
   - its `GetHashCode`;
   - the parameter it produces, modelled as the record of arguments passed to the `SqlParameter`
     constructor.

The model also has a `Registration` datatype with the functions `Register` and `RegisterAll`.
They stand for a caller's fluent chain `b.When(..).When(..)`, which stops at the first exception.
The source has no such function; the chain exists so that properties of call order can be stated.

`wrappers.dfy` holds the `Option` type, which stands for a C# null, and the `Result` type, which
stands for a thrown exception.

A builder is a Dafny value, so a `When` call cannot change its receiver. The receiver's `Build()`
is the same sequence before and after the call. The source gets the same property from its
`readonly` field, which only the constructor assigns (src/Projac/SqlProjectionBuilder.cs:13, 30).
`IndependentBranches` spells out what that means for two registrations on one shared builder.

## Model

| member | source | states |
|---|---|---|
| `Projection.NewBuilder` | src/Projac/SqlProjectionBuilder.cs:18-21 | the parameterless constructor is the array constructor applied to an empty array, and its `Build()` is empty |
| `Projection.FromHandlers` | src/Projac/SqlProjectionBuilder.cs:27-31 | a null handler array fails with `ArgumentNull("handlers")` and nothing else fails; otherwise `Build()` returns exactly the given handlers |
| `Projection.Builder.Build` | src/Projac/SqlProjectionBuilder.cs:106-109 | returns the builder's entries in registration order, and they are its whole state: a builder made from them is the same builder; `FromHandlers`, `NewBuilder`, the `When` overloads and `RegisterAllInOrder` state what those entries are |
| `Projection.Builder.WhenSingle` | src/Projac/SqlProjectionBuilder.cs:40-54 | a null handler fails with `ArgumentNull("handler")` and nothing else fails; otherwise the receiver's entries are kept as an identical prefix, exactly one entry for `TMessage` is appended, and it projects every message of that type to the one-element sequence `[handler(message)]` |
| `Projection.Builder.WhenArray` | src/Projac/SqlProjectionBuilder.cs:63-77 | a null handler fails with `ArgumentNull("handler")` and nothing else fails; otherwise the receiver's entries are kept as an identical prefix, exactly one entry for `TMessage` is appended, and it projects every message of that type to exactly `handler(message)`, including an empty result |
| `Projection.Builder.WhenEnumerable` | src/Projac/SqlProjectionBuilder.cs:86-100 | the same as the array overload, for a handler returning an enumeration of commands: a null handler fails with `ArgumentNull("handler")` and nothing else fails, exactly one entry for `TMessage` is appended to the unchanged prefix, and it projects every message of that type to exactly `handler(message)`; its result is identical to the array overload's for every handler |
| `Projection.RegisterStep` | src/Projac/SqlProjectionBuilder.cs:40-100 | whichever overload a registration uses, a null handler fails, and any other handler appends one entry with that registration's type token and projection behaviour |
| `Projection.RegisterAllInOrder` | src/Projac/SqlProjectionBuilder.cs:106-109 | a chain of `When` calls succeeds exactly when none of its handlers is null, and fails with `ArgumentNull("handler")` otherwise; on success `Build()` holds the receiver's entries, then one entry per call in call order, each with that call's type and projection |
| `Projection.RegisterAllWellTyped` | src/Projac/SqlProjectionBuilder.cs:47-51 | registration keeps every entry applicable to every message of the type it was registered for |
| `Projection.IndependentBranches` | src/Projac/SqlProjectionBuilder.cs:13-31 | two registrations on the same builder both succeed, share the receiver's entries as a prefix, and each ends with only its own new entry |
| `CharNull.ToSqlParameter` | src/Paramol/SqlClient/TSqlCharNullValue.cs:43-56 | the parameter has the given name, type `Char`, the value's size, direction `Input`, nullable, precision 0, scale 0, source column `""`, row version `Default` and value `DBNull` |
| `CharNull.ToDbParameter` | src/Paramol/SqlClient/TSqlCharNullValue.cs:31-34 | the result describes the same `CHAR NULL` parameter, and it is identical to the `ToSqlParameter` result |
| `CharNull.EqualsValue` | src/Paramol/SqlClient/TSqlCharNullValue.cs:58-61 | the typed comparison holds exactly when the two sizes are equal, whatever the runtime types; for two instances of one runtime type that means they are the same value |
| `CharNull.Equals` | src/Paramol/SqlClient/TSqlCharNullValue.cs:70-75 | the result is false for null and for an object whose runtime type is not the receiver's, including an unrelated class and a different subclass; for an instance of the receiver's runtime type it is true exactly when the sizes are equal |
| `CharNull.GetHashCode` | src/Paramol/SqlClient/TSqlCharNullValue.cs:83-86 | the hash code is the size's own hash code |
| `CharNull.HashDependsOnlyOnSize` | src/Paramol/SqlClient/TSqlCharNullValue.cs:85 | two instances with the same size have the same hash code, whatever their runtime types |
| `CharNull.EqualsIffSameSize` | src/Paramol/SqlClient/TSqlCharNullValue.cs:70-74 | `Equals` holds if and only if the argument is an instance of the receiver's own runtime type with the same size |
| `CharNull.EqualsReflexive` | src/Paramol/SqlClient/TSqlCharNullValue.cs:58-61 | every instance equals itself |
| `CharNull.EqualsSymmetric` | src/Paramol/SqlClient/TSqlCharNullValue.cs:58-61 | `v.Equals(w)` is the same as `w.Equals(v)` |
| `CharNull.EqualsTransitive` | src/Paramol/SqlClient/TSqlCharNullValue.cs:58-61 | if `u` equals `v` and `v` equals `w`, then `u` equals `w` |
| `CharNull.HashConsistentWithEquals` | src/Paramol/SqlClient/TSqlCharNullValue.cs:83-86 | equal instances have equal hash codes, whatever function of the size's value the size hashes by |
| `CharNull.EqualsIffSameParameter` | src/Paramol/SqlClient/TSqlCharNullValue.cs:43-75 | equal instances produce the same parameter under a given name; between instances of one runtime type the converse holds too; instances of different runtime types are never equal, even when their parameters agree |

## Left out

- `Projection.Builder.WhenSingle`: the contract says the stored projector accepts every message of the registered type. It does not also say that the projector rejects messages of every other type, because Dafny's encoding of a lambda's precondition does not let that direction be proved. The lambda's `requires m.ty == token` still enforces it.
- `Projection.Builder.WhenArray`: does not state that messages of other types are rejected, for the same reason as `WhenSingle`.
- `Projection.Builder.WhenEnumerable`: does not state that messages of other types are rejected, for the same reason as `WhenSingle`. An enumeration is also modelled as the finite sequence it yields, so lazy or infinite enumerations are not modelled.
- `Projection.RegisterAllWellTyped`: states applicability to the registered type only, for the same reason as `WhenSingle`.
- CLR casting and subtyping: `(TMessage) message` also succeeds for a message whose runtime type derives from `TMessage`. The model compares type tokens for equality only.
- Array aliasing: the array constructor stores the caller's array without copying it, and `Build` returns that same array. A caller could change the array later, and the model's `seq` values cannot express that. A handler array that contains null elements is also not modelled.
- A handler array result that is null, or that contains null commands, is passed through by the source unchecked. The model's command sequences have no null.
- Choosing the handler for a message at dispatch time is not part of this model. The source files modelled here only build the handler array; they do not consult it.
- `src/Projac.Connector/TaskExtensions.cs` (running a sequence of tasks one after another) is not part of this model. Its behaviour is defined by the task scheduler, continuations and cancellation tokens, which are concurrency machinery outside these files.
- `src/Paramol/SqlNonQueryStatement.cs` is not part of this model. It only forwards its arguments to a base class that is not part of this model. Commands stay opaque in the builder.
- `SqlParameter`, `DbParameter` and `DBNull` are ADO.NET library types. Only the constructor arguments are modelled, not the behaviour of those objects. `SqlDbType` lists only the few members this model needs to tell `Char` apart.
- `CharNull.HashConsistentWithEquals`: holds only because `TSqlCharSize`'s `==` (used at src/Paramol/SqlClient/TSqlCharNullValue.cs:60) and its `GetHashCode` are assumed to agree on the size's `int` value. `TSqlCharSize` is not part of this model, so that agreement is not checked.
- Subclasses of `TSqlCharNullValue` are represented only by a runtime-type name. A subclass's own fields and any override of `Equals` or `GetHashCode` are not modelled.
- `TSqlCharSize` is not part of this model. It is represented by the `int` it converts to, and its hash function is a parameter of `GetHashCode`.
