/**
 * The process-wide start-up status (init_status.rs): the error that stopped
 * the configuration from loading, and a flag telling the first window that
 * the legacy configuration was migrated, which is reported only once.
 */
module InitStatus {
  import opened Wrappers

  /** `InitErrorPayload`: the configuration file and what went wrong with it. */
  datatype InitError = InitError(path: string, error: string)

  /** The two cells; a poisoned lock is not modelled. */
  class StartupStatus {
    var initError: Option<InitError>
    var migrationSuccess: bool

    /** Both cells start empty: no error and no migration. */
    constructor ()
      ensures initError == None && !migrationSuccess
    {
      initError := None;
      migrationSuccess := false;
    }

    /** `set_init_error`: the latest error replaces any earlier one. */
    method SetInitError(payload: InitError)
      modifies this
      ensures initError == Some(payload) && migrationSuccess == old(migrationSuccess)
    {
      initError := Some(payload);
    }

    /** `get_init_error`: a copy of the recorded error, without clearing it. */
    method GetInitError() returns (r: Option<InitError>)
      ensures r == initError
    {
      r := initError;
    }

    /** `set_migration_success` */
    method SetMigrationSuccess()
      modifies this
      ensures migrationSuccess && initError == old(initError)
    {
      migrationSuccess := true;
    }

    /** `take_migration_success`: the flag is reported and cleared, so it reads true at most once. */
    method TakeMigrationSuccess() returns (b: bool)
      modifies this
      ensures b == old(migrationSuccess)
      ensures !migrationSuccess && initError == old(initError)
    {
      b := migrationSuccess;
      migrationSuccess := false;
    }
  }

  /** A recorded error reads back unchanged, however often it is read. */
  method InitErrorRoundTrip(payload: InitError) returns (first: Option<InitError>, second: Option<InitError>)
    ensures first == Some(payload) && second == Some(payload)
  {
    var status := new StartupStatus();
    status.SetInitError(payload);
    first := status.GetInitError();
    second := status.GetInitError();
  }

  /** A migration is announced exactly once: the first take reads true, every later one false. */
  method MigrationReportedOnce() returns (first: bool, second: bool)
    ensures first && !second
  {
    var status := new StartupStatus();
    status.SetMigrationSuccess();
    first := status.TakeMigrationSuccess();
    second := status.TakeMigrationSuccess();
  }
}
