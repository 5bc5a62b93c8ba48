// The exception classes the core raises and catches, the Python builtins among
// them, and the wrappers every operation of the model returns through.

module Exceptions {

  datatype Option<T> = None | Some(value: T)

  /** The exception classes that cross the model's operations. */
  datatype Exception =
    | ScopesNotLoaded
    | ScopeNotFound
    | ParentScopeNotFound
    | MultipleScopesFound
    | ApplicationError
    | ChangePhaseException
    | FormError
    | LookupError
    | KeyError
    | IndexError
    | ValueError
    | TypeError
    | AttributeError
    | Warning
    | RuntimeWarning

  /** The direct base class, None for a class derived straight from Exception. */
  function Base(e: Exception): Option<Exception>
  {
    match e
    case ParentScopeNotFound => Some(ScopeNotFound)
    case ChangePhaseException => Some(ApplicationError)
    case FormError => Some(ApplicationError)
    case KeyError => Some(LookupError)
    case IndexError => Some(LookupError)
    case RuntimeWarning => Some(Warning)
    case _ => None
  }

  function Rank(e: Exception): nat
  {
    if Base(e).Some? then 1 else 0
  }

  lemma BaseIsRoot(e: Exception)
    ensures Base(e).Some? ==> Base(Base(e).value).None?
  {
  }

  /** `raised` is an instance of `cls` (Python's issubclass, reflexive). */
  predicate IsA(raised: Exception, cls: Exception)
    decreases Rank(raised)
  {
    raised == cls || (Base(raised).Some? && Rank(Base(raised).value) < Rank(raised) && IsA(Base(raised).value, cls))
  }

  /** An `except cls:` clause catches `raised`. */
  predicate Catches(cls: Exception, raised: Exception)
  {
    IsA(raised, cls)
  }

  /** The handlers the scope code relies on: ScopeNotFound catches
      ParentScopeNotFound but not the other two lookup failures, and
      ParentScopeNotFound does not catch a plain ScopeNotFound. */
  lemma ScopeHandlers()
    ensures Catches(ScopeNotFound, ParentScopeNotFound)
    ensures !Catches(ParentScopeNotFound, ScopeNotFound)
    ensures !Catches(ScopeNotFound, MultipleScopesFound)
    ensures !Catches(ScopeNotFound, ScopesNotLoaded)
    ensures !Catches(ScopeNotFound, KeyError) && !Catches(KeyError, ScopeNotFound)
    ensures !Catches(ScopeNotFound, AttributeError)
  {
  }

  /** The four scope exception classes: `except ScopeNotFound` catches
      exactly ScopeNotFound and ParentScopeNotFound, and each of the other
      three catches exactly itself. */
  lemma ScopeClassesCatch()
    ensures forall e :: Catches(ScopeNotFound, e) <==> e == ScopeNotFound || e == ParentScopeNotFound
    ensures forall e :: Catches(ParentScopeNotFound, e) <==> e == ParentScopeNotFound
    ensures forall e :: Catches(ScopesNotLoaded, e) <==> e == ScopesNotLoaded
    ensures forall e :: Catches(MultipleScopesFound, e) <==> e == MultipleScopesFound
  {
  }

  /** Catching is transitive along the class hierarchy. */
  lemma {:induction false} CatchesTransitive(a: Exception, b: Exception, c: Exception)
    requires IsA(a, b) && IsA(b, c)
    ensures IsA(a, c)
    decreases Rank(a)
  {
    if a != b {
      CatchesTransitive(Base(a).value, b, c);
    }
  }

  /** The application errors carry their error URI as first argument. */
  const CHANGE_PHASE_ERROR_URI := "application.error.change_phase"
  const FORM_ERROR_URI := "application.error.validation_error"

  datatype AppError = AppError(cls: Exception, uri: string, args: seq<string>)

  function ChangePhaseError(args: seq<string>): (e: AppError)
    ensures e.cls == ChangePhaseException && IsA(e.cls, ApplicationError)
    ensures e.uri == CHANGE_PHASE_ERROR_URI && e.args == args
  {
    AppError(ChangePhaseException, CHANGE_PHASE_ERROR_URI, args)
  }

  function FormValidationError(formName: string, errors: string): (e: AppError)
    ensures e.cls == FormError && IsA(e.cls, ApplicationError)
    ensures e.uri == FORM_ERROR_URI && e.args == [formName, errors]
  {
    AppError(FormError, FORM_ERROR_URI, [formName, errors])
  }

  /** The two application errors are told apart by their URI alone. */
  lemma AppErrorUrisDistinct(args: seq<string>, formName: string, errors: string)
    ensures ChangePhaseError(args).uri != FormValidationError(formName, errors).uri
  {
    assert CHANGE_PHASE_ERROR_URI[18] != FORM_ERROR_URI[18];
  }

  /** What an operation returns, or the exception it raises. */
  datatype Result<T> = Ok(value: T) | Err(error: Exception)
  {
    predicate IsFailure() { Err? }
    function PropagateFailure<U>(): Result<U> requires Err? { Err(error) }
    function Extract(): T requires Ok? { value }
  }

  /** The outcome of an operation that returns nothing. */
  datatype Status = Done | Failed(error: Exception)
  {
    predicate IsFailure() { Failed? }
    function PropagateFailure(): Status requires Failed? { this }
  }
}
