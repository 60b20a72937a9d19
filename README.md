# libtracker-sparql Java binding: value-type bridge and error-slot wrappers

A Dafny model of the local logic of the Java (JNA) binding to GNOME Tracker's
libtracker-sparql. Almost every method of the binding forwards to a native
function. Two pieces hold logic of their own, and they are what this project
models:

- **The value-type enum bridge.** `TrackerSparqlValueType` names the eight
  kinds of RDF term a result column can hold: unbound, URI, string, integer,
  double, datetime, blank node and boolean. Each constant is declared with an
  integer code. `getValue(i)` looks for the constant whose ordinal is `i` and
  throws `IllegalArgumentException` otherwise. The JNA `EnumConverter` uses it
  in `fromNative`; `toNative` goes the other way with `getIntValue`.
  (module `ValueTypes`, file `ValueTypes.dfy`; module `EnumConverter`, file
  `EnumConverter.dfy`)
- **The error-slot discipline.** Each fallible wrapper does four things. It
  allocates an empty error slot (a `PointerByReference`). It calls the native
  function, which may write a `GError` into the slot. If the slot is then set,
  it throws a `TrackerException` with the error's code and message. If not, it
  returns the native result unchanged. (module `Errors`, file `Errors.dfy`;
  module `Libtracker`, file `Libtracker.dfy`)

How the model is built:

- The native library is a parameter, the datatype `Libtracker.Sparql<S>`.
  It holds one function per fallible entry point. Each function maps an
  abstract native state `S` and the call's arguments to three things: a new
  state, the primary result, and what the call writes into the error slot.
- Each wrapper is a method. It allocates an `ErrorSlot` object, stores what
  the native call wrote, and branches on it. It returns a `Result`: `Success`
  for a Java return and `Failure` for a thrown `TrackerException`.
- Java `null` and thrown exceptions become `Option`, `Result` and
  `EnumConverter.FromNativeResult` values.

Behaviour of the source worth noting:

- An out-of-range code raises `IllegalArgumentException` with the message
  "No Enum Constants with this intValue", and no default constant is
  returned (`ValueTypes.OutOfRangeFails`).
- `TrackerException` carries only the code and the message of the `GError`.
  The `GError` layout declares domain, code and message, but only code and
  message are ever read; the domain does not reach the exception
  (`Errors.DomainNotCarried`).
- The cursor accessors do no state or index checks. They pass straight through
  to native code, so the model has no cursor state machine and no local
  state or index errors.
- `fromNative` on a `JNAEnum` class that is not an enum dereferences the null
  from `getEnumConstants()`. The model shows this as `NullPointerThrown`.

## Model

| member | source | states |
|---|---|---|
| `ValueTypes.IntValue` | src/main/java/com/turnguard/libtracker/sparql/Libtracker.java:200-216 | each constant's code is in 0..7 and is the position of that constant in `values()` |
| `ValueTypes.Ordinal` | src/main/java/com/turnguard/libtracker/sparql/Libtracker.java:200-207 | `ordinal()` is the constant's position in the declaration order listed by `values()` |
| `ValueTypes.EveryConstantListed` | src/main/java/com/turnguard/libtracker/sparql/Libtracker.java:219 | `values()` contains every constant |
| `ValueTypes.OrdinalAt` | src/main/java/com/turnguard/libtracker/sparql/Libtracker.java:219-220 | the constant at position k of `values()` has ordinal k |
| `ValueTypes.SearchFrom` | src/main/java/com/turnguard/libtracker/sparql/Libtracker.java:219-224 | the loop from position k on finds a constant exactly when k <= i < 8, and it is the one at position i; otherwise the exception with the fixed message |
| `ValueTypes.GetValue` | src/main/java/com/turnguard/libtracker/sparql/Libtracker.java:218-225 | `getValue(i)` returns a constant exactly when 0 <= i < 8, and then its ordinal and its code are both i; otherwise it throws IllegalArgumentException |
| `ValueTypes.IntValueIsOrdinal` | src/main/java/com/turnguard/libtracker/sparql/Libtracker.java:200-216 | every constant's `intValue` equals its `ordinal()` |
| `ValueTypes.CodesInDeclarationOrder` | src/main/java/com/turnguard/libtracker/sparql/Libtracker.java:200-212 | there are eight constants and their codes are 0..7 in the order UNBOUND, URI, STRING, INTEGER, DOUBLE, DATETIME, BLANK_NODE, BOOLEAN |
| `ValueTypes.RoundTripFromConstant` | src/main/java/com/turnguard/libtracker/sparql/Libtracker.java:213-223 | `getValue(v.getIntValue()) == v` for every constant v |
| `ValueTypes.RoundTripFromCode` | src/main/java/com/turnguard/libtracker/sparql/Libtracker.java:218-223 | each code in 0..7 decodes to the one constant declared with that code, whose code is i again |
| `ValueTypes.OutOfRangeFails` | src/main/java/com/turnguard/libtracker/sparql/Libtracker.java:219-224 | a code outside 0..7 throws and yields no constant and no default |
| `EnumConverter.FromNative` | src/main/java/com/turnguard/libtracker/sparql/Libtracker.java:147-160 | null when the target is not a JNAEnum or has no constants; a null dereference when it has no constant array; otherwise exactly the outcome of `getValue(i)` |
| `EnumConverter.ToNative` | src/main/java/com/turnguard/libtracker/sparql/Libtracker.java:162-165 | the code is in 0..7, and `fromNative` on the value-type class gives the constant back |
| `EnumConverter.FromNativeValueType` | src/main/java/com/turnguard/libtracker/sparql/Libtracker.java:147-165 | for the value-type class, `fromNative` converts exactly the codes 0..7, `toNative` of its result is the input code, and other codes throw IllegalArgumentException |
| `Errors.NewTrackerException` | src/main/java/com/turnguard/libtracker/sparql/Libtracker.java:182-188 | the exception's error code is the GError's code and its message is the GError's message |
| `Errors.SameExceptionIff` | src/main/java/com/turnguard/libtracker/sparql/Libtracker.java:185-192 | two GErrors give equal exceptions if and only if their codes and messages are equal |
| `Errors.DomainNotCarried` | src/main/java/com/turnguard/libtracker/sparql/Libtracker.java:182-188 | the GError's domain has no effect on the exception |
| `Libtracker.ErrorSlot.constructor` | src/main/java/com/turnguard/libtracker/sparql/Libtracker.java:254 | a new error slot holds no error |
| `Libtracker.ReportsIsFaithful` | src/main/java/com/turnguard/libtracker/sparql/Libtracker.java:256-259 | a wrapper succeeds if and only if the slot stayed null; it then returns the primary result unchanged; on error it carries the code and message verbatim; the report is unique |
| `Libtracker.GetTrackerSparqlConnection` | src/main/java/com/turnguard/libtracker/sparql/Libtracker.java:520-527 | the new native state is the call's; the connection is returned exactly when the slot stays null, otherwise only the exception from the slot |
| `Libtracker.Query` | src/main/java/com/turnguard/libtracker/sparql/Libtracker.java:253-260 | the same for the query cursor, with the query text and cancellable false passed through |
| `Libtracker.Update` | src/main/java/com/turnguard/libtracker/sparql/Libtracker.java:266-272 | the same with no primary result, with priority -100 and cancellable false passed through |
| `Libtracker.GetStatistics` | src/main/java/com/turnguard/libtracker/sparql/Libtracker.java:278-285 | the same for the statistics cursor |
| `Libtracker.Next` | src/main/java/com/turnguard/libtracker/sparql/Libtracker.java:313-320 | the same for the boolean from the cursor's next |

## Left out

- Loading the native library and setting up the type mapper, the static `SPARQL` instance and the `options` map: process bootstrap. The library is passed to each wrapper as a `Sparql<S>` value instead.
- The `Sparql` JNA interface: foreign declarations whose behaviour is native. Its fallible entry points appear only as the functions inside `Sparql<S>`. `tracker_sparql_get_uuid_urn` is not modelled.
- `GObject`, the `parent_instance` and `priv` fields, `getFieldOrder`, the `ByReference`/`ByValue` variants and the reading of GError fields from raw memory: memory layout, not behaviour. Handles are opaque addresses and a GError is its three field values.
- The cursor accessors `rewind`, `close`, `getColumnsCount`, `isBound`, `getString`, `getInteger`, `getDouble`, `getBoolean`, `getBindingName` and `getValueType`. They forward to native code with no local check; `getDouble` is also floating point.
- What cancellation and the priority mean: both are native-defined. The model only passes the constants `NotCancellable` (false) and `UpdatePriority` (-100) to the native functions.
- The `-1` initialiser of `errorCode`: the constructor overwrites it before the object is visible, so the model has no state in which it can be observed.
- `EnumConverter.ToNative` on a null or non-JNAEnum input: the source throws NullPointerException or ClassCastException there; the model's argument is a value-type constant, so those inputs cannot be expressed.
- Java's 32-bit `int` for codes: every value in the model is an unbounded integer, and no operation here can overflow.
- The binding's smoke test: it needs a live Tracker store and makes no assertions.
