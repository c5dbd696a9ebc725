/**
 * Options handed to a resolver when it is created. `TimeSpan` values are
 * modelled as tick counts, `TimeSpan?` as an Option of a tick count.
 */
module Options {
  import opened Wrappers
  import opened Errors

  const MaxBackoffMessage: string := "Maximum reconnect backoff must be greater than zero."
  const InitialBackoffMessage: string := "Initial reconnect backoff must be greater than zero."

  class ResolverOptions {
    /** The resolver address, as the text of its URI; read-only. */
    const address: string
    /** The port used when the address names none; read-only. */
    const defaultPort: int

    // Backing fields of the two validated properties. Neither has an
    // initialiser, so they start at `default(TimeSpan?)` and `default(TimeSpan)`.
    var maxBackoff: Option<int>
    var initialBackoff: int

    /**
     * What the setters keep: a maximum backoff, when set, is positive, and the
     * initial backoff is either its zero default or a positive value.
     */
    ghost predicate Valid()
      reads this
    {
      (maxBackoff.None? || maxBackoff.value > 0) && initialBackoff >= 0
    }

    constructor(address: string, defaultPort: int)
      ensures Valid()
      ensures this.address == address && this.defaultPort == defaultPort
      ensures maxBackoff == None && initialBackoff == 0
    {
      this.address := address;
      this.defaultPort := defaultPort;
      maxBackoff := None;
      initialBackoff := 0;
    }

    /** Getter of `MaxReconnectBackoff`; None means there is no upper limit. */
    function MaxReconnectBackoff(): (r: Option<int>)
      reads this
      ensures Valid() ==> r.None? || r.value > 0
    {
      maxBackoff
    }

    /** Getter of `InitialReconnectBackoff`. */
    function InitialReconnectBackoff(): (r: int)
      reads this
      ensures Valid() ==> r >= 0
    {
      initialBackoff
    }

    /**
     * Setter of `MaxReconnectBackoff`. The C# test `value <= TimeSpan.Zero`
     * is a lifted comparison, false for null, so null is accepted.
     */
    method SetMaxReconnectBackoff(value: Option<int>) returns (outcome: Outcome<Error>)
      requires Valid()
      modifies this`maxBackoff
      ensures Valid()
      ensures outcome.Pass? <==> (value.None? || value.value > 0)
      ensures outcome.Pass? ==> MaxReconnectBackoff() == value
      ensures outcome.Fail? ==> outcome.error == ArgumentException(MaxBackoffMessage)
      ensures outcome.Fail? ==> MaxReconnectBackoff() == old(MaxReconnectBackoff())
      ensures InitialReconnectBackoff() == old(InitialReconnectBackoff())
    {
      if value.Some? && value.value <= 0 {
        return Fail(ArgumentException(MaxBackoffMessage));
      }
      maxBackoff := value;
      outcome := Pass;
    }

    /** Setter of `InitialReconnectBackoff`: only a strictly positive duration is stored. */
    method SetInitialReconnectBackoff(value: int) returns (outcome: Outcome<Error>)
      requires Valid()
      modifies this`initialBackoff
      ensures Valid()
      ensures outcome.Pass? <==> value > 0
      ensures outcome.Pass? ==> InitialReconnectBackoff() == value
      ensures outcome.Fail? ==> outcome.error == ArgumentException(InitialBackoffMessage)
      ensures outcome.Fail? ==> InitialReconnectBackoff() == old(InitialReconnectBackoff())
      ensures MaxReconnectBackoff() == old(MaxReconnectBackoff())
    {
      if value <= 0 {
        return Fail(ArgumentException(InitialBackoffMessage));
      }
      initialBackoff := value;
      outcome := Pass;
    }
  }
}
