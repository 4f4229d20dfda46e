/** internal/k8s/builder.go: the objects published for a configuration and the configuration hash.
    Environment variable names are an enumeration, so that different names are different keys. */
module Builder {
  import opened Types

  datatype EnvVar =
    | SERVER_NAME | WORLD_NAME | SERVER_PUBLIC | SERVER_PORT
    | ADMINLIST_IDS | BANNEDLIST_IDS | PERMITTEDLIST_IDS
    | UPDATE_CRON | RESTART_CRON | BACKUPS_CRON
    | UPDATE_IF_IDLE | RESTART_IF_IDLE | BACKUPS | BACKUPS_IF_IDLE
    | BACKUPS_MAX_AGE | BACKUPS_MAX_COUNT
    | VALHEIM_PLUS | BEPINEX
    | TZ | PUID | PGID

  /** SHA-256 over the configuration's JSON, idealised as collision free. */
  datatype Digest = Digest(of: ValheimConfig)

  function HashCfg(cfg: ValheimConfig): Digest {
    Digest(cfg)
  }

  function FormatBool(b: bool): string {
    if b then "true" else "false"
  }

  function Digits(n: nat): string {
    if n < 10 then [('0' as int + n) as char] else Digits(n / 10) + [('0' as int + n % 10) as char]
  }

  function Itoa(n: int): string {
    if n < 0 then "-" + Digits(-n) else Digits(n)
  }

  /** Reads back a run of decimal digits. */
  function DigitsValue(s: string): int {
    if s == "" then 0 else 10 * DigitsValue(s[..|s| - 1]) + (s[|s| - 1] as int - '0' as int)
  }

  /** Reads back a signed decimal. */
  function Atoi(s: string): int {
    if s != "" && s[0] == '-' then -DigitsValue(s[1..]) else DigitsValue(s)
  }

  lemma {:induction false} DigitsRoundTrip(n: nat)
    ensures Digits(n) != "" && Digits(n)[0] != '-'
    ensures DigitsValue(Digits(n)) == n
  {
    if n < 10 {
      assert Digits(n)[..0] == "";
    } else {
      DigitsRoundTrip(n / 10);
      assert Digits(n)[..|Digits(n)| - 1] == Digits(n / 10);
    }
  }

  /** The signed decimal printer is undone by the reader, on every integer. */
  lemma ItoaRoundTrip(n: int)
    ensures Atoi(Itoa(n)) == n
  {
    if n < 0 {
      DigitsRoundTrip(-n);
      assert Itoa(n)[1..] == Digits(-n);
    } else {
      DigitsRoundTrip(n);
    }
  }

  /** The value published under each environment variable. */
  function EnvValue(cfg: ValheimConfig, k: EnvVar): string {
    match k
    case SERVER_NAME => cfg.core.serverName
    case WORLD_NAME => cfg.core.worldName
    case SERVER_PUBLIC => FormatBool(cfg.core.serverPublic)
    case SERVER_PORT => Itoa(cfg.core.serverPort)
    case ADMINLIST_IDS => cfg.access.adminIds
    case BANNEDLIST_IDS => cfg.access.bannedIds
    case PERMITTEDLIST_IDS => cfg.access.permittedIds
    case UPDATE_CRON => cfg.maintenance.updateCron
    case RESTART_CRON => cfg.maintenance.restartCron
    case BACKUPS_CRON => cfg.maintenance.backupsCron
    case UPDATE_IF_IDLE => FormatBool(cfg.maintenance.updateIfIdle)
    case RESTART_IF_IDLE => FormatBool(cfg.maintenance.restartIfIdle)
    case BACKUPS => FormatBool(cfg.maintenance.backups)
    case BACKUPS_IF_IDLE => FormatBool(cfg.maintenance.backupsIfIdle)
    case BACKUPS_MAX_AGE => Itoa(cfg.maintenance.backupsMaxAge)
    case BACKUPS_MAX_COUNT => Itoa(cfg.maintenance.backupsMaxCount)
    case VALHEIM_PLUS => FormatBool(cfg.mods.valheimPlus)
    case BEPINEX => FormatBool(cfg.mods.bepInEx)
    case TZ => cfg.system.timeZone
    case PUID => Itoa(cfg.system.puid)
    case PGID => Itoa(cfg.system.pgid)
  }

  /** The environment of a configuration: every variable is set. */
  function EnvOf(cfg: ValheimConfig): map<EnvVar, string> {
    map k: EnvVar | true :: EnvValue(cfg, k)
  }

  ghost predicate Agrees(m: map<EnvVar, string>, cfg: ValheimConfig) {
    forall k | k in m :: m[k] == EnvValue(cfg, k)
  }

  lemma AllSetIsEnv(m: map<EnvVar, string>, cfg: ValheimConfig)
    requires Agrees(m, cfg) && forall k: EnvVar :: k in m
    ensures m == EnvOf(cfg)
  {
    assert m.Keys == EnvOf(cfg).Keys;
  }

  method MapCore(cfg: ValheimConfig, from: map<EnvVar, string>) returns (m: map<EnvVar, string>)
    requires Agrees(from, cfg)
    ensures Agrees(m, cfg) && from.Keys <= m.Keys
    ensures SERVER_NAME in m && WORLD_NAME in m && SERVER_PUBLIC in m && SERVER_PORT in m && ADMINLIST_IDS in m
    ensures BANNEDLIST_IDS in m && PERMITTEDLIST_IDS in m
  {
    m := from;
    m := m[SERVER_NAME := cfg.core.serverName];
    m := m[WORLD_NAME := cfg.core.worldName];
    m := m[SERVER_PUBLIC := FormatBool(cfg.core.serverPublic)];
    m := m[SERVER_PORT := Itoa(cfg.core.serverPort)];
    assert Agrees(m, cfg);
    m := m[ADMINLIST_IDS := cfg.access.adminIds];
    m := m[BANNEDLIST_IDS := cfg.access.bannedIds];
    m := m[PERMITTEDLIST_IDS := cfg.access.permittedIds];
  }

  method MapSchedules(cfg: ValheimConfig, from: map<EnvVar, string>) returns (m: map<EnvVar, string>)
    requires Agrees(from, cfg)
    ensures Agrees(m, cfg) && from.Keys <= m.Keys
    ensures UPDATE_CRON in m && RESTART_CRON in m && BACKUPS_CRON in m && UPDATE_IF_IDLE in m && RESTART_IF_IDLE in m
    ensures BACKUPS in m && BACKUPS_IF_IDLE in m
  {
    m := from;
    m := m[UPDATE_CRON := cfg.maintenance.updateCron];
    m := m[RESTART_CRON := cfg.maintenance.restartCron];
    m := m[BACKUPS_CRON := cfg.maintenance.backupsCron];
    m := m[UPDATE_IF_IDLE := FormatBool(cfg.maintenance.updateIfIdle)];
    assert Agrees(m, cfg);
    m := m[RESTART_IF_IDLE := FormatBool(cfg.maintenance.restartIfIdle)];
    m := m[BACKUPS := FormatBool(cfg.maintenance.backups)];
    m := m[BACKUPS_IF_IDLE := FormatBool(cfg.maintenance.backupsIfIdle)];
  }

  method MapLimitsAndMods(cfg: ValheimConfig, from: map<EnvVar, string>) returns (m: map<EnvVar, string>)
    requires Agrees(from, cfg)
    ensures Agrees(m, cfg) && from.Keys <= m.Keys
    ensures BACKUPS_MAX_AGE in m && BACKUPS_MAX_COUNT in m && VALHEIM_PLUS in m && BEPINEX in m
  {
    m := from;
    m := m[BACKUPS_MAX_AGE := Itoa(cfg.maintenance.backupsMaxAge)];
    m := m[BACKUPS_MAX_COUNT := Itoa(cfg.maintenance.backupsMaxCount)];
    m := m[VALHEIM_PLUS := FormatBool(cfg.mods.valheimPlus)];
    m := m[BEPINEX := FormatBool(cfg.mods.bepInEx)];
  }

  method MapSystem(cfg: ValheimConfig, from: map<EnvVar, string>) returns (m: map<EnvVar, string>)
    requires Agrees(from, cfg)
    ensures Agrees(m, cfg) && from.Keys <= m.Keys && TZ in m && PUID in m && PGID in m
  {
    m := from;
    m := m[TZ := cfg.system.timeZone];
    m := m[PUID := Itoa(cfg.system.puid)];
    m := m[PGID := Itoa(cfg.system.pgid)];
  }

  /** cfgMapper fills the map one assignment at a time. */
  method CfgMapper(cfg: ValheimConfig) returns (m: map<EnvVar, string>)
    ensures m == EnvOf(cfg)
    ensures (forall k: EnvVar :: k in m) && ReadConfig(m, cfg.core.serverPass) == cfg
  {
    m := MapCore(cfg, map[]);
    m := MapSchedules(cfg, m);
    m := MapLimitsAndMods(cfg, m);
    m := MapSystem(cfg, m);
    forall k: EnvVar ensures k in m {
      match k
      case SERVER_NAME =>
      case WORLD_NAME =>
      case SERVER_PUBLIC =>
      case SERVER_PORT =>
      case ADMINLIST_IDS =>
      case BANNEDLIST_IDS =>
      case PERMITTEDLIST_IDS =>
      case UPDATE_CRON =>
      case RESTART_CRON =>
      case BACKUPS_CRON =>
      case UPDATE_IF_IDLE =>
      case RESTART_IF_IDLE =>
      case BACKUPS =>
      case BACKUPS_IF_IDLE =>
      case BACKUPS_MAX_AGE =>
      case BACKUPS_MAX_COUNT =>
      case VALHEIM_PLUS =>
      case BEPINEX =>
      case TZ =>
      case PUID =>
      case PGID =>
    }
    AllSetIsEnv(m, cfg);
    PublishedRoundTrip(cfg);
  }

  /** What the ConfigMap and the Secret of a server carry. */
  datatype Published = Published(env: map<EnvVar, string>, password: string)

  function Publish(cfg: ValheimConfig): Published {
    Published(EnvOf(cfg), cfg.core.serverPass)
  }

  lemma FormatBoolInjective(a: bool, b: bool)
    requires FormatBool(a) == FormatBool(b)
    ensures a == b
  {
    assert "true"[0] != "false"[0];
  }

  // What the container reads back.

  /** A number that should be an int32. */
  function ReadPort(s: string): int32 {
    var v := Atoi(s);
    if -0x8000_0000 <= v < 0x8000_0000 then v else 0
  }

  function ReadBool(s: string): bool {
    s == "true"
  }

  function ReadCore(env: map<EnvVar, string>, password: string): CoreSettings
    requires forall k: EnvVar :: k in env
  {
    CoreSettings(env[SERVER_NAME], env[WORLD_NAME], password, ReadPort(env[SERVER_PORT]), ReadBool(env[SERVER_PUBLIC]))
  }

  function ReadMaintenance(env: map<EnvVar, string>): Maintenance
    requires forall k: EnvVar :: k in env
  {
    Maintenance(
      env[UPDATE_CRON], ReadBool(env[UPDATE_IF_IDLE]), env[RESTART_CRON], ReadBool(env[RESTART_IF_IDLE]),
      ReadBool(env[BACKUPS]), ReadBool(env[BACKUPS_IF_IDLE]), env[BACKUPS_CRON],
      Atoi(env[BACKUPS_MAX_AGE]), Atoi(env[BACKUPS_MAX_COUNT]))
  }

  function ReadModsAndSystem(env: map<EnvVar, string>): (Mods, SystemSettings)
    requires forall k: EnvVar :: k in env
  {
    (Mods(ReadBool(env[VALHEIM_PLUS]), ReadBool(env[BEPINEX])),
     SystemSettings(env[TZ], Atoi(env[PUID]), Atoi(env[PGID])))
  }

  /** The configuration read out of an environment and a password: each setting under its own name. */
  function ReadConfig(env: map<EnvVar, string>, password: string): ValheimConfig
    requires forall k: EnvVar :: k in env
  {
    var access := AccessControl(env[ADMINLIST_IDS], env[BANNEDLIST_IDS], env[PERMITTEDLIST_IDS]);
    var (mods, system) := ReadModsAndSystem(env);
    ValheimConfig(ReadCore(env, password), access, ReadMaintenance(env), mods, system)
  }

  lemma BoolRoundTrip(b: bool)
    ensures ReadBool(FormatBool(b)) == b
  {
    assert "true"[0] != "false"[0];
  }

  lemma CoreRoundTrip(cfg: ValheimConfig)
    ensures ReadCore(EnvOf(cfg), cfg.core.serverPass) == cfg.core
  {
    BoolRoundTrip(cfg.core.serverPublic);
    ItoaRoundTrip(cfg.core.serverPort);
  }

  lemma MaintenanceRoundTrip(cfg: ValheimConfig)
    ensures ReadMaintenance(EnvOf(cfg)) == cfg.maintenance
  {
    var m := cfg.maintenance;
    BoolRoundTrip(m.updateIfIdle);
    BoolRoundTrip(m.restartIfIdle);
    BoolRoundTrip(m.backups);
    BoolRoundTrip(m.backupsIfIdle);
    ItoaRoundTrip(m.backupsMaxAge);
    ItoaRoundTrip(m.backupsMaxCount);
  }

  lemma ModsAndSystemRoundTrip(cfg: ValheimConfig)
    ensures ReadModsAndSystem(EnvOf(cfg)) == (cfg.mods, cfg.system)
  {
    BoolRoundTrip(cfg.mods.valheimPlus);
    BoolRoundTrip(cfg.mods.bepInEx);
    ItoaRoundTrip(cfg.system.puid);
    ItoaRoundTrip(cfg.system.pgid);
  }

  /** What is published is read back as exactly the configuration it was made from, setting by setting. */
  lemma PublishedRoundTrip(cfg: ValheimConfig)
    ensures ReadConfig(EnvOf(cfg), cfg.core.serverPass) == cfg
  {
    CoreRoundTrip(cfg);
    MaintenanceRoundTrip(cfg);
    ModsAndSystemRoundTrip(cfg);
  }

  /** So the published values determine every field of the configuration. */
  lemma PublishedDeterminesConfig(a: ValheimConfig, b: ValheimConfig)
    requires Publish(a) == Publish(b)
    ensures a == b
  {
    PublishedRoundTrip(a);
    PublishedRoundTrip(b);
  }

  /** The controller's hash comparison sees a difference exactly when some published value differs. */
  lemma HashTestIsExact(a: ValheimConfig, b: ValheimConfig)
    ensures HashCfg(a) != HashCfg(b) <==>
            (exists k: EnvVar :: EnvOf(a)[k] != EnvOf(b)[k]) || a.core.serverPass != b.core.serverPass
  {
    if (forall k: EnvVar :: EnvOf(a)[k] == EnvOf(b)[k]) && a.core.serverPass == b.core.serverPass {
      assert EnvOf(a) == EnvOf(b);
      PublishedDeterminesConfig(a, b);
    }
  }
}
