/** The settings read from the environment at start-up
    (bot/config/config.py). The environment is a parameter: a variable that
    is not set is None. */
module Config {
  import opened Text

  const DefaultMongoUri: string := "mongodb://localhost:27017"
  const DefaultDbName: string := "telegram_bot"
  const DefaultDebug: string := "False"
  const DefaultSmtpServer: string := "smtp.gmail.com"
  const DefaultSmtpPort: string := "465"
  const DefaultSmtpSubject: string := "Новый запрос на консультацию"
  const DefaultWelcome: string := "Добро пожаловать в наш канал! Ваша заявка на подписку была одобрена."

  const UsersCollection: string := "users"
  const InviteLinksCollection: string := "invite_links"
  const BroadcastsCollection: string := "broadcasts"

  /** `int()` of every non-empty piece, in order; a piece `int()` rejects
      raises (None). */
  function ParseIds(pieces: seq<string>): (r: Option<seq<int>>)
    ensures r.Some? <==> forall i :: 0 <= i < |pieces| && pieces[i] != "" ==> ParseInt(pieces[i]).Some?
    ensures r.Some? ==> |r.value| <= |pieces|
  {
    if pieces == [] then Some([])
    else
      var rest := ParseIds(pieces[1..]);
      assert forall i :: 1 <= i < |pieces| ==> pieces[i] == pieces[1..][i - 1];
      if pieces[0] == "" then rest
      else match ParseInt(pieces[0])
        case None => None
        case Some(v) => if rest.None? then None else Some([v] + rest.value)
  }

  /** `ADMIN_USER_IDS`: the comma-separated list, empty pieces skipped; an
      unset variable is the empty list. */
  function AdminUserIds(raw: Option<string>): (r: Option<seq<int>>)
    ensures raw.None? || raw == Some("") ==> r == Some([])
  {
    assert Split("", ',') == [""];
    ParseIds(Split(raw.GetOr(""), ','))
  }

  /** The printed ids, one string each. */
  function IdStrings(ids: seq<int>): (r: seq<string>)
    ensures |r| == |ids|
    ensures forall i :: 0 <= i < |ids| ==> r[i] == IntToString(ids[i])
  {
    if ids == [] then [] else [IntToString(ids[0])] + IdStrings(ids[1..])
  }

  /** Joining pieces free of the separator and splitting again gives the
      pieces back. */
  lemma {:induction false} JoinSplit(pieces: seq<string>, sep: char)
    requires |pieces| >= 1
    requires forall i :: 0 <= i < |pieces| ==> sep !in pieces[i]
    ensures Split(Join(pieces, sep), sep) == pieces
    decreases |pieces|
  {
    if |pieces| == 1 {
      SplitNoSep(pieces[0], sep);
    } else {
      JoinSplit(pieces[1..], sep);
      SplitAfterField(pieces[0], Join(pieces[1..], sep), sep);
      assert [pieces[0]] + pieces[1..] == pieces;
    }
  }

  lemma {:induction false} ParseIdStrings(ids: seq<int>)
    ensures ParseIds(IdStrings(ids)) == Some(ids)
  {
    if ids != [] {
      var ps := IdStrings(ids);
      assert ps[1..] == IdStrings(ids[1..]);
      ParseIdStrings(ids[1..]);
      IntRoundTrip(ids[0]);
      assert ps[0] != "";
      assert [ids[0]] + ids[1..] == ids;
    }
  }

  /** A comma-joined list of ids configures exactly those admins. */
  lemma AdminIdsRoundTrip(ids: seq<int>)
    requires ids != []
    ensures AdminUserIds(Some(Join(IdStrings(ids), ','))) == Some(ids)
  {
    var ps := IdStrings(ids);
    forall i | 0 <= i < |ps| ensures ',' !in ps[i] {
      NoSeparatorInNumber(ids[i], ',');
    }
    JoinSplit(ps, ',');
    ParseIdStrings(ids);
  }

  /** `DEBUG`: on only when the value is "true" in any letter case; off when
      unset. */
  predicate Debug(raw: Option<string>) {
    Lower(raw.GetOr(DefaultDebug)) == "true"
  }

  /** Debugging is off when `DEBUG` is unset; the letter case of the value
      never matters, and only a four-letter value turns it on. */
  lemma DebugSpelling(s: string)
    ensures !Debug(None)
    ensures Debug(Some(s)) == Debug(Some(Lower(s)))
    ensures Debug(Some(s)) ==> |s| == 4
  {
    DebugOffByDefault();
    LowerIdempotent(s);
    if Debug(Some(s)) {
      assert |Lower(s)| == |s|;
    }
  }

  lemma DebugOffByDefault()
    ensures !Debug(None)
  {
    var low := Lower(DefaultDebug);
    assert low[0] == 'f';
  }

  /** The settings module. */
  datatype Settings = Settings(
    botToken: Option<string>,
    channelId: Option<string>,
    adminUserIds: seq<int>,
    mongoUri: string,
    dbName: string,
    debug: bool,
    welcome: string,
    smtpServer: string,
    smtpPort: int,
    smtpUser: Option<string>,
    smtpPassword: Option<string>,
    smtpToEmail: Option<string>,
    smtpSubject: string)

  /** Importing the module; None when an `int()` at import raises. */
  function Load(env: string -> Option<string>): (r: Option<Settings>)
    ensures r.Some? <==> AdminUserIds(env("ADMIN_USER_IDS")).Some? &&
                         ParseInt(env("SMTP_PORT").GetOr(DefaultSmtpPort)).Some?
    ensures r.Some? ==> r.value.adminUserIds == AdminUserIds(env("ADMIN_USER_IDS")).value
    ensures r.Some? ==> r.value.botToken == env("TELEGRAM_BOT_TOKEN") && r.value.channelId == env("CHANNEL_ID")
    ensures r.Some? ==> r.value.mongoUri == env("MONGODB_URI").GetOr(DefaultMongoUri)
    ensures r.Some? ==> r.value.dbName == env("MONGODB_DB_NAME").GetOr(DefaultDbName)
    ensures r.Some? ==> (r.value.debug <==> Debug(env("DEBUG")))
    ensures r.Some? ==> r.value.welcome == env("DEFAULT_WELCOME_MESSAGE").GetOr(DefaultWelcome)
    ensures r.Some? ==> r.value.smtpServer == env("SMTP_SERVER").GetOr(DefaultSmtpServer)
    ensures r.Some? ==> r.value.smtpUser == env("SMTP_USER") && r.value.smtpPassword == env("SMTP_PASSWORD")
    ensures r.Some? ==> r.value.smtpToEmail == env("SMTP_TO_EMAIL")
    ensures r.Some? ==> r.value.smtpSubject == env("SMTP_SUBJECT").GetOr(DefaultSmtpSubject)
    ensures r.Some? ==> r.value.smtpPort == ParseInt(env("SMTP_PORT").GetOr(DefaultSmtpPort)).value
  {
    var ids := AdminUserIds(env("ADMIN_USER_IDS"));
    var port := ParseInt(env("SMTP_PORT").GetOr(DefaultSmtpPort));
    if ids.None? || port.None? then None
    else Some(Settings(
      env("TELEGRAM_BOT_TOKEN"), env("CHANNEL_ID"), ids.value,
      env("MONGODB_URI").GetOr(DefaultMongoUri), env("MONGODB_DB_NAME").GetOr(DefaultDbName),
      Debug(env("DEBUG")), env("DEFAULT_WELCOME_MESSAGE").GetOr(DefaultWelcome),
      env("SMTP_SERVER").GetOr(DefaultSmtpServer), port.value,
      env("SMTP_USER"), env("SMTP_PASSWORD"), env("SMTP_TO_EMAIL"),
      env("SMTP_SUBJECT").GetOr(DefaultSmtpSubject)))
  }

  lemma DefaultPortParses()
    ensures ParseInt(DefaultSmtpPort) == Some(465)
  {
    var s := DefaultSmtpPort;
    assert |s| == 3 && s[0] == '4' && s[1] == '6' && s[2] == '5';
    TrimNothing(s);
    assert AllDigits(s);
    assert DigitsValue(s[..1]) == 4 by { assert s[..1][..0] == []; }
    assert DigitsValue(s[..2]) == 46 by { assert s[..2][..1] == s[..1]; }
    assert DigitsValue(s) == 465 by { assert s[..2] == s[..|s| - 1]; }
  }

  /** With none of the parsed variables set, the import succeeds with no
      admins, debug off, port 465 and the documented defaults. */
  lemma UnsetDefaults(env: string -> Option<string>)
    requires env("ADMIN_USER_IDS").None? && env("SMTP_PORT").None? && env("DEBUG").None?
    requires env("MONGODB_URI").None? && env("MONGODB_DB_NAME").None?
    ensures var r := Load(env);
      && r.Some? && r.value.adminUserIds == [] && !r.value.debug && r.value.smtpPort == 465
      && r.value.mongoUri == DefaultMongoUri && r.value.dbName == DefaultDbName
  {
    assert AdminUserIds(env("ADMIN_USER_IDS")) == Some([]);
    DefaultPortParses();
    assert env("SMTP_PORT").GetOr(DefaultSmtpPort) == DefaultSmtpPort;
    DebugSpelling("");
    assert !Debug(env("DEBUG"));
  }
}
