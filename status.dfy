/**
 * The activity status of status.ts: a mutable record whose setters each
 * overwrite one field, a flag accumulator and an append-only button list.
 */
module Status {
  import opened JsValues

  /** Activity types; COMPETING is 5, the value 4 is skipped. */
  datatype ActivityType = PLAYING | STREAMING | LISTENING | WATCHING | COMPETING
  {
    function Value(): int
    {
      match this
      case PLAYING => 0
      case STREAMING => 1
      case LISTENING => 2
      case WATCHING => 3
      case COMPETING => 5
    }
  }

  lemma ActivityTypeValues(t: ActivityType, u: ActivityType)
    ensures t.Value() in {0, 1, 2, 3, 5}
    ensures t.Value() == u.Value() ==> t == u
    ensures PLAYING.Value() == 0 && COMPETING.Value() == 5
  {
  }

  /** Which field the member list shows. */
  datatype DisplayType = NAME | STATE | DETAILS
  {
    function Value(): int
    {
      match this
      case NAME => 0
      case STATE => 1
      case DETAILS => 2
    }
  }

  /** The activity flags, one bit each. */
  datatype ActivityFlag =
    | INSTANCE | JOIN | SPECTATE | JOIN_REQUEST | SYNC | PLAY
    | PARTY_PRIVACY_FRIENDS | PARTY_PRIVACY_VOICE_CHANNEL | EMBEDDED
  {
    function Bit(): bv32
    {
      match this
      case INSTANCE => 1 << 0
      case JOIN => 1 << 1
      case SPECTATE => 1 << 2
      case JOIN_REQUEST => 1 << 3
      case SYNC => 1 << 4
      case PLAY => 1 << 5
      case PARTY_PRIVACY_FRIENDS => 1 << 6
      case PARTY_PRIVACY_VOICE_CHANNEL => 1 << 7
      case EMBEDDED => 1 << 8
    }
  }

  /** The nine flags are distinct single bits below `1 << 9`. */
  lemma FlagBits(f: ActivityFlag, g: ActivityFlag)
    ensures f.Bit() != 0 && f.Bit() & (f.Bit() - 1) == 0
    ensures f.Bit() < 1 << 9
    ensures f != g ==> f.Bit() & g.Bit() == 0
  {
  }

  datatype Timestamps = Timestamps(start: Option<int>, end: Option<int>)
  datatype Emoji = Emoji(name: string, id: Option<int>, animated: Option<bool>)
  datatype Party = Party(id: Option<int>, size: Option<(int, int)>)
  datatype Assets = Assets(largeImage: Option<string>, largeText: Option<string>, largeUrl: Option<string>,
                           smallImage: Option<string>, smallText: Option<string>, smallUrl: Option<string>)
  /** `matchSecret` is serialised as `match`, a Dafny keyword. */
  datatype Secrets = Secrets(join: Option<string>, spectate: Option<string>, matchSecret: Option<string>)
  /** `caption` is serialised as `label`, a Dafny keyword. */
  datatype Button = Button(caption: string, url: string)

  /** The fields of an ActivityStatus, in declaration order. */
  datatype Activity = Activity(
    name: string,
    activityType: ActivityType,
    url: Option<string>,
    createdAt: int,
    timestamps: Option<Timestamps>,
    applicationId: Option<int>,
    statusDisplayType: Option<DisplayType>,
    details: Option<string>,
    detailsUrl: Option<string>,
    state: Option<string>,
    stateUrl: Option<string>,
    emoji: Option<Emoji>,
    party: Option<Party>,
    assets: Option<Assets>,
    secrets: Option<Secrets>,
    instance: Option<bool>,
    flags: Option<bv32>,
    buttons: Option<seq<Button>>)

  /** The flags a non-empty `setFlags` starts from: `!this.flags` takes absent as 0. */
  function FlagBase(flags: Option<bv32>): bv32
  {
    match flags
    case None => 0
    case Some(f) => f
  }

  /** The bitwise OR of the bits of the first `n` flags. */
  function MaskOf(fs: seq<ActivityFlag>, n: nat): bv32
    requires n <= |fs|
  {
    if n == 0 then 0 else MaskOf(fs, n - 1) | fs[n - 1].Bit()
  }

  /** The bitwise OR of the flags' bits. */
  function Mask(fs: seq<ActivityFlag>): bv32
  {
    MaskOf(fs, |fs|)
  }

  /** `flags` after `setFlags(...fs)`. */
  function WithFlags(flags: Option<bv32>, fs: seq<ActivityFlag>): Option<bv32>
  {
    if fs == [] then flags else Some(FlagBase(flags) | Mask(fs))
  }

  /** The mask holds a flag's bit exactly when the flag is among the first `n`. */
  lemma {:induction false} MaskOfBit(fs: seq<ActivityFlag>, n: nat, g: ActivityFlag)
    requires n <= |fs|
    ensures MaskOf(fs, n) & g.Bit() == g.Bit() <==> g in fs[..n]
    ensures MaskOf(fs, n) & g.Bit() == 0 <==> g !in fs[..n]
  {
    FlagBits(g, g);
    if n > 0 {
      MaskOfBit(fs, n - 1, g);
      FlagBits(fs[n - 1], g);
      assert fs[..n] == fs[..n - 1] + [fs[n - 1]];
    }
  }

  /** Taking a whole sequence keeps its elements. */
  lemma TakeAll(fs: seq<ActivityFlag>, g: ActivityFlag)
    ensures g in fs[..|fs|] <==> g in fs
  {
    assert fs[..|fs|] == fs;
  }

  /** The mask of the first `i + 1` flags adds the `i`-th flag's bit. */
  lemma {:induction false} MaskOfNext(fs: seq<ActivityFlag>, i: nat)
    requires i < |fs|
    ensures MaskOf(fs, i + 1) == MaskOf(fs, i) | fs[i].Bit()
  {
  }

  /** Bitwise OR is associative. */
  lemma OrAssociative(a: bv32, b: bv32, c: bv32)
    ensures (a | b) | c == a | (b | c)
  {
  }

  /** The mask holds a flag's bit exactly when the flag was given. */
  lemma {:induction false} MaskBit(fs: seq<ActivityFlag>, g: ActivityFlag)
    ensures Mask(fs) & g.Bit() == g.Bit() <==> g in fs
    ensures Mask(fs) & g.Bit() == 0 <==> g !in fs
  {
    TakeAll(fs, g);
    MaskOfBit(fs, |fs|, g);
  }

  /** The mask of any flags stays below `1 << 9`. */
  lemma {:induction false} MaskOfBound(fs: seq<ActivityFlag>, n: nat)
    requires n <= |fs|
    ensures MaskOf(fs, n) < 1 << 9
  {
    if n > 0 {
      MaskOfBound(fs, n - 1);
      FlagBits(fs[n - 1], fs[n - 1]);
    }
  }

  /**
   * `setFlags` with no flags leaves `flags` as it was, absent included;
   * otherwise a flag's bit is set afterwards exactly when it was set before
   * or is among the flags given, so no bit is ever cleared.
   */
  lemma {:induction false} WithFlagsBits(flags: Option<bv32>, fs: seq<ActivityFlag>, g: ActivityFlag)
    ensures fs == [] ==> WithFlags(flags, fs) == flags
    ensures fs != [] ==>
              && WithFlags(flags, fs).Some?
              && (WithFlags(flags, fs).value & g.Bit() == g.Bit() <==>
                    g in fs || FlagBase(flags) & g.Bit() == g.Bit())
    ensures fs != [] && flags.Some? ==>
              WithFlags(flags, fs).value & flags.value == flags.value
  {
    MaskBit(fs, g);
    FlagBits(g, g);
  }

  /** Repeating `setFlags` with the same flags changes nothing. */
  lemma {:induction false} WithFlagsIdempotent(flags: Option<bv32>, fs: seq<ActivityFlag>)
    ensures WithFlags(WithFlags(flags, fs), fs) == WithFlags(flags, fs)
  {
  }

  /** Flags built only by `setFlags` stay below `1 << 9`. */
  lemma {:induction false} WithFlagsBound(flags: Option<bv32>, fs: seq<ActivityFlag>)
    requires flags.Some? ==> flags.value < 1 << 9
    ensures WithFlags(flags, fs).Some? ==> WithFlags(flags, fs).value < 1 << 9
  {
    MaskOfBound(fs, |fs|);
  }

  /** The button list after `addButton(b)`. */
  function WithButton(buttons: Option<seq<Button>>, b: Button): Option<seq<Button>>
  {
    match buttons
    case None => Some([b])
    case Some(bs) => Some(bs + [b])
  }

  /** `addButton` appends at the end and keeps every earlier button in place. */
  lemma {:induction false} WithButtonAppends(buttons: Option<seq<Button>>, b: Button)
    ensures var r := WithButton(buttons, b).value;
            var before := if buttons.None? then [] else buttons.value;
            |r| == |before| + 1 && r[..|before|] == before && r[|before|] == b
  {
  }

  function TimestampsJs(t: Timestamps): JsVal
  {
    Obj(Prop("start", OptNum(t.start)) + Prop("end", OptNum(t.end)))
  }

  function EmojiJs(e: Emoji): JsVal
  {
    Obj(Prop("name", Str(e.name)) + Prop("id", OptNum(e.id)) + Prop("animated", OptBool(e.animated)))
  }

  function PartyJs(p: Party): JsVal
  {
    Obj(Prop("id", OptNum(p.id)) +
        Prop("size", match p.size case None => Undefined case Some(s) => Arr([Num(s.0), Num(s.1)])))
  }

  function AssetsJs(a: Assets): JsVal
  {
    Obj(Prop("large_image", OptStr(a.largeImage)) + Prop("large_text", OptStr(a.largeText)) +
        Prop("large_url", OptStr(a.largeUrl)) + Prop("small_image", OptStr(a.smallImage)) +
        Prop("small_text", OptStr(a.smallText)) + Prop("small_url", OptStr(a.smallUrl)))
  }

  function SecretsJs(s: Secrets): JsVal
  {
    Obj(Prop("join", OptStr(s.join)) + Prop("spectate", OptStr(s.spectate)) +
        Prop("match", OptStr(s.matchSecret)))
  }

  function ButtonJs(b: Button): JsVal
  {
    Obj(map["label" := Str(b.caption), "url" := Str(b.url)])
  }

  function OptJs<T>(o: Option<T>, f: T -> JsVal): JsVal
  {
    match o
    case None => Undefined
    case Some(x) => f(x)
  }

  /** The property names an activity serialises under, as declared in the source. */
  const ACTIVITY_KEYS: set<string> :=
    {"name", "type", "url", "created_at", "timestamps", "application_id", "status_display_type",
     "details", "details_url", "state", "state_url", "emoji", "party", "assets", "secrets",
     "instance", "flags", "buttons"}

  /** The value of the activity property `key`, `undefined` while it is absent. */
  function ActivityField(a: Activity, key: string): JsVal
  {
    if key == "name" then Str(a.name)
    else if key == "type" then Num(a.activityType.Value())
    else if key == "url" then OptStr(a.url)
    else if key == "created_at" then Num(a.createdAt)
    else if key == "timestamps" then OptJs(a.timestamps, TimestampsJs)
    else if key == "application_id" then OptNum(a.applicationId)
    else if key == "status_display_type" then OptJs(a.statusDisplayType, (d: DisplayType) => Num(d.Value()))
    else if key == "details" then OptStr(a.details)
    else if key == "details_url" then OptStr(a.detailsUrl)
    else if key == "state" then OptStr(a.state)
    else if key == "state_url" then OptStr(a.stateUrl)
    else if key == "emoji" then OptJs(a.emoji, EmojiJs)
    else if key == "party" then OptJs(a.party, PartyJs)
    else if key == "assets" then OptJs(a.assets, AssetsJs)
    else if key == "secrets" then OptJs(a.secrets, SecretsJs)
    else if key == "instance" then OptBool(a.instance)
    else if key == "flags" then OptJs(a.flags, (f: bv32) => Num(f as int))
    else if key == "buttons" then
      OptJs(a.buttons, (bs: seq<Button>) => Arr(seq(|bs|, i requires 0 <= i < |bs| => ButtonJs(bs[i]))))
    else Undefined
  }

  /** The object JSON.stringify sees for an activity: its defined fields under their source names. */
  function ActivityJs(a: Activity): JsVal
  {
    Obj(map k | k in ACTIVITY_KEYS && !ActivityField(a, k).Undefined? :: ActivityField(a, k))
  }

  /** The serialised activity always carries `name`, `type` and `created_at`. */
  lemma ActivityJsCore(a: Activity)
    ensures Get(ActivityJs(a), "name") == Ok(Str(a.name))
    ensures Get(ActivityJs(a), "type") == Ok(Num(a.activityType.Value()))
    ensures Get(ActivityJs(a), "created_at") == Ok(Num(a.createdAt))
  {
  }

  /**
   * The loop of `setFlags(...fs)`: with no flags nothing happens;
   * otherwise each flag in turn is OR-ed in, an absent or 0 value being
   * reset to 0 first.
   */
  method OrFlags(flags: Option<bv32>, fs: seq<ActivityFlag>) returns (acc: Option<bv32>)
    ensures acc == WithFlags(flags, fs)
  {
    acc := flags;
    if |fs| != 0 {
      for i := 0 to |fs|
        invariant FlagBase(acc) == FlagBase(flags) | MaskOf(fs, i)
        invariant i == 0 ==> acc == flags
        invariant i > 0 ==> acc.Some?
      {
        if acc.None? || acc.value == 0 {
          acc := Some(0);
        }
        var bit := fs[i].Bit();
        acc := Some(acc.value | bit);
        MaskOfNext(fs, i);
        OrAssociative(FlagBase(flags), MaskOf(fs, i), bit);
      }
    }
  }

  class ActivityStatus {
    var name: string
    var activityType: ActivityType
    var url: Option<string>
    var createdAt: int
    var timestamps: Option<Timestamps>
    var applicationId: Option<int>
    var statusDisplayType: Option<DisplayType>
    var details: Option<string>
    var detailsUrl: Option<string>
    var state: Option<string>
    var stateUrl: Option<string>
    var emoji: Option<Emoji>
    var party: Option<Party>
    var assets: Option<Assets>
    var secrets: Option<Secrets>
    var instance: Option<bool>
    var flags: Option<bv32>
    var buttons: Option<seq<Button>>

    /** The current field values. */
    function Value(): Activity
      reads this
    {
      Activity(name, activityType, url, createdAt, timestamps, applicationId, statusDisplayType,
               details, detailsUrl, state, stateUrl, emoji, party, assets, secrets, instance,
               flags, buttons)
    }

    /** `new ActivityStatus(name, type)`, with `created_at` stamped from Date.now() (`now`). */
    constructor (name: string, now: int, activityType: ActivityType := PLAYING)
      ensures Value() == Activity(name, activityType, None, now, None, None, None, None, None,
                                  None, None, None, None, None, None, None, None, None)
    {
      this.name := name;
      this.activityType := activityType;
      createdAt := now;
      url, timestamps, applicationId, statusDisplayType := None, None, None, None;
      details, detailsUrl, state, stateUrl := None, None, None, None;
      emoji, party, assets, secrets, instance, flags, buttons := None, None, None, None, None, None, None;
    }

    method SetName(name: string)
      modifies this`name
      ensures Value() == old(Value()).(name := name)
    {
      this.name := name;
    }

    method SetType(activityType: ActivityType)
      modifies this`activityType
      ensures Value() == old(Value()).(activityType := activityType)
    {
      this.activityType := activityType;
    }

    method SetUrl(url: string)
      modifies this`url
      ensures Value() == old(Value()).(url := Some(url))
    {
      this.url := Some(url);
    }

    method SetCreatedAt(timestamp: int)
      modifies this`createdAt
      ensures Value() == old(Value()).(createdAt := timestamp)
    {
      createdAt := timestamp;
    }

    method SetTimestamps(timestamps: Timestamps)
      modifies this`timestamps
      ensures Value() == old(Value()).(timestamps := Some(timestamps))
    {
      this.timestamps := Some(timestamps);
    }

    method SetApplicationId(appId: int)
      modifies this`applicationId
      ensures Value() == old(Value()).(applicationId := Some(appId))
    {
      applicationId := Some(appId);
    }

    method SetStatusDisplayType(displayType: DisplayType)
      modifies this`statusDisplayType
      ensures Value() == old(Value()).(statusDisplayType := Some(displayType))
    {
      statusDisplayType := Some(displayType);
    }

    method SetDetails(details: string)
      modifies this`details
      ensures Value() == old(Value()).(details := Some(details))
    {
      this.details := Some(details);
    }

    method SetDetailsUrl(detailsUrl: string)
      modifies this`detailsUrl
      ensures Value() == old(Value()).(detailsUrl := Some(detailsUrl))
    {
      this.detailsUrl := Some(detailsUrl);
    }

    method SetState(state: string)
      modifies this`state
      ensures Value() == old(Value()).(state := Some(state))
    {
      this.state := Some(state);
    }

    method SetStateUrl(stateUrl: string)
      modifies this`stateUrl
      ensures Value() == old(Value()).(stateUrl := Some(stateUrl))
    {
      this.stateUrl := Some(stateUrl);
    }

    method SetEmoji(emoji: Emoji)
      modifies this`emoji
      ensures Value() == old(Value()).(emoji := Some(emoji))
    {
      this.emoji := Some(emoji);
    }

    method SetParty(party: Party)
      modifies this`party
      ensures Value() == old(Value()).(party := Some(party))
    {
      this.party := Some(party);
    }

    method SetAssets(assets: Assets)
      modifies this`assets
      ensures Value() == old(Value()).(assets := Some(assets))
    {
      this.assets := Some(assets);
    }

    method SetSecrets(secrets: Secrets)
      modifies this`secrets
      ensures Value() == old(Value()).(secrets := Some(secrets))
    {
      this.secrets := Some(secrets);
    }

    method SetInstance(instance: bool)
      modifies this`instance
      ensures Value() == old(Value()).(instance := Some(instance))
    {
      this.instance := Some(instance);
    }

    /** `setFlags(...fs)`: ORs each flag into `flags`, one at a time. */
    method SetFlags(fs: seq<ActivityFlag>)
      modifies this`flags
      ensures Value() == old(Value()).(flags := WithFlags(old(flags), fs))
    {
      flags := OrFlags(flags, fs);
    }

    method SetButtons(buttons: seq<Button>)
      modifies this`buttons
      ensures Value() == old(Value()).(buttons := Some(buttons))
    {
      this.buttons := Some(buttons);
    }

    /** `addButton(b)`: a one-element list when there is none, otherwise a push. */
    method AddButton(button: Button)
      modifies this`buttons
      ensures Value() == old(Value()).(buttons := WithButton(old(buttons), button))
    {
      if buttons.None? {
        buttons := Some([button]);
      } else {
        buttons := Some(buttons.value + [button]);
      }
    }
  }
}
