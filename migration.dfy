/**
 * MigrationImplementation: the boot type, and the migration status
 * written to the persistent status file and read back through RFC.
 *
 * The property file, the status file and the RFC store are inputs:
 * `Option` values for what could be read, a flag for whether the status
 * file could be opened. Out-parameters the source leaves untouched on
 * failure are passed in and returned.
 */
module Migration {
  import opened Core

  const MIGRATIONSTATUS := "/opt/secure/persistent/MigrationStatus"
  const TR181_MIGRATIONSTATUS := "Device.DeviceInfo.Migration.MigrationStatus"

  /** The statuses `SetMigrationStatus` accepts. */
  const STATUS_SET: set<string> := {
    "NOT_STARTED", "NOT_NEEDED", "STARTED", "PRIORITY_SETTINGS_MIGRATED",
    "DEVICE_SETTINGS_MIGRATED", "CLOUD_SETTINGS_MIGRATED", "APP_DATA_MIGRATED", "MIGRATION_COMPLETED"
  }

  lemma EightStatuses()
    ensures |STATUS_SET| == 8
  {
    var names := ["NOT_STARTED", "NOT_NEEDED", "STARTED", "PRIORITY_SETTINGS_MIGRATED",
                  "DEVICE_SETTINGS_MIGRATED", "CLOUD_SETTINGS_MIGRATED", "APP_DATA_MIGRATED", "MIGRATION_COMPLETED"];
    assert names[0][1] == 'O' && names[1][4] == 'N' && names[2][0] == 'S' && names[3][0] == 'P';
    assert names[4][0] == 'D' && names[5][0] == 'C' && names[6][1] == 'P' && names[7][0] == 'M';
    assert names[0][4] == 'S' && names[1][4] != 'S';
    assert names[6][0] == 'A' && names[7][1] == 'I';
  }

  /** `GetBootTypeInfo`: `property` is the BOOT_TYPE value of `/tmp/bootType`, if present. */
  method GetBootTypeInfo(property: Option<string>, bootTypeIn: string) returns (r: HResult, bootType: string)
    ensures r == ERROR_NONE <==> property.Some?
    ensures r != ERROR_NONE ==> r == ERROR_FILE_IO
    ensures bootType == property.GetOr(bootTypeIn)
  {
    if property.Some? {
      return ERROR_NONE, property.value;
    }
    return ERROR_FILE_IO, bootTypeIn;
  }

  /** `GetMigrationStatus`: `rfc` is the RFC value, if the RFC call succeeded. */
  method GetMigrationStatus(rfc: Option<string>, migrationStatusIn: string) returns (r: HResult, migrationStatus: string)
    ensures r == ERROR_NONE <==> rfc.Some?
    ensures r != ERROR_NONE ==> r == ERROR_FILE_IO
    ensures migrationStatus == rfc.GetOr(migrationStatusIn)
  {
    if rfc.Some? {
      return ERROR_NONE, rfc.value;
    }
    return ERROR_FILE_IO, migrationStatusIn;
  }

  class MigrationImplementation {
    /** The contents of the status file, when it exists. */
    var statusFile: Option<string>

    constructor(statusFile: Option<string>)
      ensures this.statusFile == statusFile
    {
      this.statusFile := statusFile;
    }

    /** `canOpen` is whether the status file can be opened for writing. */
    method SetMigrationStatus(status: string, canOpen: bool, successIn: bool) returns (r: HResult, success: bool)
      modifies this
      ensures status !in STATUS_SET ==> r == ERROR_INVALID_PARAMETER && success == successIn && statusFile == old(statusFile)
      ensures status in STATUS_SET && !canOpen ==> r == ERROR_FILE_IO && success == successIn && statusFile == old(statusFile)
      ensures status in STATUS_SET && canOpen ==> r == ERROR_NONE && success && statusFile == Some(status)
    {
      if status in STATUS_SET {
        if canOpen {
          statusFile := Some(status);
        } else {
          return ERROR_FILE_IO, successIn;
        }
      } else {
        return ERROR_INVALID_PARAMETER, successIn;
      }
      return ERROR_NONE, true;
    }
  }
}
