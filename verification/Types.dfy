/** Values shared by every part of the operator: optional values, server names, and the
    server configuration of internal/k8s/types.go. */
module Types {

  type Name = string

  /** Go's int32. */
  type int32 = x: int | -0x8000_0000 <= x < 0x8000_0000

  type pos = x: int | x > 0 witness 1

  datatype Option<+T> = None | Some(value: T)

  datatype CoreSettings = CoreSettings(
    serverName: Name,
    worldName: string,
    serverPass: string,
    serverPort: int32,
    serverPublic: bool)

  datatype AccessControl = AccessControl(adminIds: string, bannedIds: string, permittedIds: string)

  datatype Maintenance = Maintenance(
    updateCron: string,
    updateIfIdle: bool,
    restartCron: string,
    restartIfIdle: bool,
    backups: bool,
    backupsIfIdle: bool,
    backupsCron: string,
    backupsMaxAge: int,
    backupsMaxCount: int)

  datatype Mods = Mods(valheimPlus: bool, bepInEx: bool)

  datatype SystemSettings = SystemSettings(timeZone: string, puid: int, pgid: int)

  datatype ValheimConfig = ValheimConfig(
    core: CoreSettings,
    access: AccessControl,
    maintenance: Maintenance,
    mods: Mods,
    system: SystemSettings)
  {
    /** The checks of ValheimConfig.Validate. */
    predicate Valid() {
      |core.serverPass| >= 5 && !(mods.bepInEx && mods.valheimPlus)
    }
  }

  /** The zero configuration that only carries a name: what the drift pass stores in a tombstone. */
  function OrphanConfig(n: Name): ValheimConfig {
    ValheimConfig(
      CoreSettings(n, "", "", 0, false),
      AccessControl("", "", ""),
      Maintenance("", false, "", false, false, false, "", 0, 0),
      Mods(false, false),
      SystemSettings("", 0, 0))
  }

  /** int32 addition of one, with Go's wrap-around. */
  function Inc32(p: int32): int32 {
    if p == 0x7fff_ffff then -0x8000_0000 else p + 1
  }

  /** A listing in some order: every key exactly once. Neither the SQL query nor the Go map
      iteration promises more. */
  ghost predicate Lists<T>(order: seq<T>, keys: set<T>) {
    && (forall i, j | 0 <= i < j < |order| :: order[i] != order[j])
    && (set k | k in order) == keys
  }
}
