/**
 * The fallible wrappers of the binding. Each one starts with an empty
 * error slot, lets the native function fill it, and then either throws a
 * TrackerException built from the slot or returns the native result.
 */
module Libtracker {
  import opened Wrappers
  import opened Errors

  /** Opaque native handles; their memory layout is not modelled. */
  datatype Connection = Connection(address: nat)
  datatype Cursor = Cursor(address: nat)

  /** The cancellable argument every wrapper passes: always false. */
  const NotCancellable: bool := false
  /** The priority `update` passes to the native update. */
  const UpdatePriority: int := -100

  /**
   * The native library as seen from Java: each fallible entry point maps
   * the native state and its arguments to a new native state, its primary
   * result and what it writes into the error slot (None leaves it null).
   */
  datatype Sparql<!S> = Sparql(
    connectionGet: (S, bool) -> (S, Connection, Option<GError>),
    connectionQuery: (S, Connection, string, bool) -> (S, Cursor, Option<GError>),
    connectionUpdate: (S, Connection, string, int, bool) -> (S, Option<GError>),
    connectionStatistics: (S, Connection, bool) -> (S, Cursor, Option<GError>),
    cursorNext: (S, Cursor, bool) -> (S, bool, Option<GError>))

  /** PointerByReference: the out-parameter the native call may fill. */
  class ErrorSlot {
    var value: Option<GError>

    constructor ()
      ensures value == None
    {
      value := None;
    }
  }

  /**
   * What a wrapper reports for a native call that returned `primary` and
   * left `written` in the slot: the primary result exactly when the slot
   * stayed null, otherwise the exception and nothing else.
   */
  ghost predicate Reports<P>(r: Result<P, TrackerException>, primary: P, written: Option<GError>)
  {
    match written
    case None => r == Success(primary)
    case Some(e) => r == Failure(NewTrackerException(e))
  }

  /** A report is determined by the call, and an error carries code and message verbatim. */
  lemma ReportsIsFaithful<P>(r: Result<P, TrackerException>, primary: P, written: Option<GError>)
    requires Reports(r, primary, written)
    ensures r.Success? <==> written.None?
    ensures r.Success? ==> r.value == primary
    ensures r.Failure? ==>
              r.error.errorCode == written.value.code && r.error.message == written.value.message
    ensures forall r' :: Reports(r', primary, written) ==> r' == r
  {
  }

  /** `getTrackerSparqlConnection()`. */
  method GetTrackerSparqlConnection<S>(lib: Sparql<S>, s: S)
    returns (s': S, r: Result<Connection, TrackerException>)
    ensures var (s1, con, written) := lib.connectionGet(s, NotCancellable);
            s' == s1 && Reports(r, con, written)
  {
    var error := new ErrorSlot();
    var (s1, con, written) := lib.connectionGet(s, NotCancellable);
    s', error.value := s1, written;
    if error.value != None {
      r := Failure(NewTrackerException(error.value.value));
      return;
    }
    r := Success(con);
  }

  /** `TrackerSparqlConnection.query(query)`. */
  method Query<S>(lib: Sparql<S>, s: S, con: Connection, query: string)
    returns (s': S, r: Result<Cursor, TrackerException>)
    ensures var (s1, cursor, written) := lib.connectionQuery(s, con, query, NotCancellable);
            s' == s1 && Reports(r, cursor, written)
  {
    var error := new ErrorSlot();
    var (s1, cursor, written) := lib.connectionQuery(s, con, query, NotCancellable);
    s', error.value := s1, written;
    if error.value != None {
      r := Failure(NewTrackerException(error.value.value));
      return;
    }
    r := Success(cursor);
  }

  /** `TrackerSparqlConnection.update(query)`: no primary result. */
  method Update<S>(lib: Sparql<S>, s: S, con: Connection, query: string)
    returns (s': S, r: Result<(), TrackerException>)
    ensures var (s1, written) := lib.connectionUpdate(s, con, query, UpdatePriority, NotCancellable);
            s' == s1 && Reports(r, (), written)
  {
    var error := new ErrorSlot();
    var (s1, written) := lib.connectionUpdate(s, con, query, UpdatePriority, NotCancellable);
    s', error.value := s1, written;
    if error.value != None {
      r := Failure(NewTrackerException(error.value.value));
      return;
    }
    r := Success(());
  }

  /** `TrackerSparqlConnection.getStatistics()`. */
  method GetStatistics<S>(lib: Sparql<S>, s: S, con: Connection)
    returns (s': S, r: Result<Cursor, TrackerException>)
    ensures var (s1, cursor, written) := lib.connectionStatistics(s, con, NotCancellable);
            s' == s1 && Reports(r, cursor, written)
  {
    var error := new ErrorSlot();
    var (s1, cursor, written) := lib.connectionStatistics(s, con, NotCancellable);
    s', error.value := s1, written;
    if error.value != None {
      r := Failure(NewTrackerException(error.value.value));
      return;
    }
    r := Success(cursor);
  }

  /** `TrackerSparqlCursor.next()`. */
  method Next<S>(lib: Sparql<S>, s: S, cursor: Cursor)
    returns (s': S, r: Result<bool, TrackerException>)
    ensures var (s1, b, written) := lib.cursorNext(s, cursor, NotCancellable);
            s' == s1 && Reports(r, b, written)
  {
    var error := new ErrorSlot();
    var (s1, b, written) := lib.cursorNext(s, cursor, NotCancellable);
    s', error.value := s1, written;
    if error.value != None {
      r := Failure(NewTrackerException(error.value.value));
      return;
    }
    r := Success(b);
  }
}
