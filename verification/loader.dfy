/**
 * The Node Loader (dynamic_server.py): a backend process loads the generated artifact,
 * retrying a bounded number of times while it is not there yet.
 *
 * Each attempt's result (artifact absent, module without `app`, module that failed to run,
 * or the loaded app) is an input, one per attempt, in order.
 */
module Loader {
  import opened Wrappers

  /** The ASGI app a loaded artifact exposes, by the name of the artifact it came from. */
  datatype App = App(artifact: string)

  /**
   * One attempt: the file is absent, the module lacks `app`, importing it raised an `Exception`
   * subclass (RuntimeError and its subclasses included), importing it raised a
   * `BaseException` outside `Exception` (SystemExit, KeyboardInterrupt, GeneratorExit), or it
   * gave an app.
   */
  datatype Attempt =
    | NoArtifact
    | NoAppAttribute
    | ExecFailed(exception: string)
    | ExecAborted(exception: string)
    | Loaded(app: App)

  /**
   * The exception load_active_app ends with, told apart by where it is raised: the
   * FileNotFoundError or AttributeError an attempt raises itself, the exception the artifact's
   * import raised (re-raised unchanged, whatever its class), or the loop's own
   * RuntimeError("Unable to load mutated app"), raised after the loop. The last is a different
   * exception from a RuntimeError the artifact raises, which is `Raised("RuntimeError")`.
   */
  datatype LoadError = FileNotFound | AttributeError | Raised(exception: string) | NoAttemptMade

  /** The attempt failed with an exception that `except Exception` catches, so it may be retried. */
  predicate Caught(a: Attempt) {
    !a.Loaded? && !a.ExecAborted?
  }

  /** The exception a caught failure raises: its own, never the loop's closing RuntimeError. */
  function AttemptError(a: Attempt): (e: LoadError)
    requires Caught(a)
    ensures e != NoAttemptMade
    ensures a.NoArtifact? <==> e == FileNotFound
    ensures a.NoAppAttribute? <==> e == AttributeError
    ensures a.ExecFailed? ==> e == Raised(a.exception)
    ensures e.Raised? ==> a.ExecFailed?
  {
    match a
    case NoArtifact => FileNotFound
    case NoAppAttribute => AttributeError
    case ExecFailed(exception) => Raised(exception)
  }

  /** Each of the first n attempts failed with a caught exception. */
  predicate AllCaught(attempts: seq<Attempt>, n: nat)
    requires n <= |attempts|
  {
    forall i :: 0 <= i < n ==> Caught(attempts[i])
  }

  /**
   * load_active_app: at most max_retries attempts; the first attempt that loads an app
   * returns it at once; an import that raises outside `Exception` propagates at once; a caught
   * failure is followed by one sleep unless it was the last attempt, whose error is re-raised
   * unchanged; only with no attempt at all does the loop raise its own RuntimeError
   * (NoAttemptMade). `tries` counts attempts made and `sleeps` the sleeps taken.
   */
  method LoadActiveApp(maxRetries: int, attempts: seq<Attempt>) returns (result: Result<App, LoadError>, tries: nat, sleeps: nat)
    requires maxRetries <= |attempts|
    ensures maxRetries <= 0 ==> result == Failure(NoAttemptMade) && tries == 0 && sleeps == 0
    ensures maxRetries > 0 ==> 1 <= tries <= maxRetries && sleeps == tries - 1 && AllCaught(attempts, tries - 1)
    ensures maxRetries > 0 && attempts[tries - 1].Loaded? ==> result == Success(attempts[tries - 1].app)
    ensures maxRetries > 0 && attempts[tries - 1].ExecAborted? ==>
              result == Failure(Raised(attempts[tries - 1].exception))
    ensures maxRetries > 0 && Caught(attempts[tries - 1]) ==>
              tries == maxRetries && result == Failure(AttemptError(attempts[tries - 1]))
    ensures result == Failure(NoAttemptMade) ==> maxRetries <= 0
  {
    tries, sleeps := 0, 0;
    var i := 0;
    while i < maxRetries
      invariant 0 <= i <= |attempts|
      invariant maxRetries > 0 ==> i < maxRetries
      invariant maxRetries <= 0 ==> i == 0
      invariant tries == i && sleeps == i
      invariant AllCaught(attempts, i)
    {
      tries := tries + 1;
      if attempts[i].Loaded? {
        return Success(attempts[i].app), tries, sleeps;
      }
      if attempts[i].ExecAborted? {
        return Failure(Raised(attempts[i].exception)), tries, sleeps;
      }
      if i == maxRetries - 1 {
        return Failure(AttemptError(attempts[i])), tries, sleeps;
      }
      sleeps := sleeps + 1;
      i := i + 1;
    }
    result := Failure(NoAttemptMade);
  }

  /**
   * An artifact that calls sys.exit() at import: SystemExit escapes the first attempt, with no
   * sleep and no second attempt, although the second would have loaded an app.
   */
  method ImportExitEscapes() returns (result: Result<App, LoadError>, tries: nat, sleeps: nat)
    ensures result == Failure(Raised("SystemExit")) && tries == 1 && sleeps == 0
  {
    var attempts := [ExecAborted("SystemExit"), Loaded(App("artifact"))];
    result, tries, sleeps := LoadActiveApp(2, attempts);
    assert !Caught(attempts[0]);
    assert tries == 1;
  }
}
