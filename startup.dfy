/** src/__main__.py: the configuration check run before the bot starts. */
module Startup {
  /** The settings of src/config.py that the check reads. */
  datatype Config = Config(
    apiKey: string,
    dbString: string,
    adminId: int,
    webhookConnected: bool,
    webhookUrl: string,
    port: string,
    hours: seq<int>,
    minutes: seq<int>)

  /** The lines printed, and whether `exit(-1)` ends the program before `bot.main()`. */
  datatype Validation = Validation(printed: seq<string>, exits: bool)

  const ApiKeyError: string := "ERROR: Please configure TELEGRAM API KEY"
  const DbStringError: string := "ERROR: Please configure DB_STRING"
  const AdminIdWarning: string :=
    "WARNING: You didn't configured an ADMIN_ID, " + "so you won't be able to use admin commands!"
  const WebhookUrlError: string :=
    "ERROR: Please make sure you configured a WEBHOOK_URL " + "if you are using webhook rather than polling!"
  const PortError: string := "ERROR: Please make sure you configured " + "a valid PORT number!"
  const TimesError: string :=
    "ERROR: Please make sure time configurations are correct. " + "Hours and minutes list must be same size!"

  /** `validate()`: the checks in order, each fatal one ending the program. The bot
      starts exactly when the key and the connection string are set, polling is used,
      and the two time lists have the same length; webhook mode always exits, even when
      its own checks pass. */
  function Validate(cfg: Config): (v: Validation)
    ensures !v.exits <==>
      cfg.apiKey != "" && cfg.dbString != "" && !cfg.webhookConnected && |cfg.hours| == |cfg.minutes|
  {
    if cfg.apiKey == "" then Validation([ApiKeyError], true)
    else if cfg.dbString == "" then Validation([DbStringError], true)
    else
      var warning := if cfg.adminId == 0 then [AdminIdWarning] else [];
      if cfg.webhookConnected then
        Validation(warning
                   + (if cfg.webhookUrl == cfg.apiKey then [WebhookUrlError] else [])
                   + (if cfg.port == "" then [PortError] else []), true)
      else if |cfg.hours| != |cfg.minutes| then Validation(warning + [TimesError], true)
      else Validation(warning, false)
  }

  /** A missing key or connection string prints that one error only. */
  lemma ValidateFirstError(cfg: Config)
    ensures cfg.apiKey == "" ==> Validate(cfg).printed == [ApiKeyError]
    ensures cfg.apiKey != "" && cfg.dbString == "" ==> Validate(cfg).printed == [DbStringError]
  {
  }

  /** ADMIN_ID 0 only adds the warning in front of what is printed next; it never decides
      whether the program exits. */
  lemma AdminIdOnlyWarns(cfg: Config, other: int)
    requires cfg.apiKey != "" && cfg.dbString != ""
    requires cfg.adminId == 0 && other != 0
    ensures Validate(cfg).exits == Validate(cfg.(adminId := other)).exits
    ensures Validate(cfg).printed == [AdminIdWarning] + Validate(cfg.(adminId := other)).printed
  {
  }

  /** When the bot starts, the only line printed can be the warning, and its two lists
      of daily check times have equal length. */
  lemma StartedPrintsAtMostWarning(cfg: Config)
    requires !Validate(cfg).exits
    ensures Validate(cfg).printed == (if cfg.adminId == 0 then [AdminIdWarning] else [])
    ensures |cfg.hours| == |cfg.minutes|
  {
  }

  /** In webhook mode both webhook checks can report, in order, before the exit. */
  lemma WebhookMessages(cfg: Config)
    requires cfg.apiKey != "" && cfg.dbString != "" && cfg.webhookConnected
    requires cfg.adminId != 0
    ensures Validate(cfg).exits
    ensures Validate(cfg).printed ==
      (if cfg.webhookUrl == cfg.apiKey then [WebhookUrlError] else []) + (if cfg.port == "" then [PortError] else [])
  {
  }
}
