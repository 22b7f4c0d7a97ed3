/**
 Channel mode +f (message flood protection): the mode handler that sets,
 replaces and removes a channel's flood settings, and the per-message rule
 that counts a user's lines and kicks (and optionally bans) a flooder.
 */
module MessageFlood {
  import opened Options
  import opened CStrings
  import opened FloodParameter
  import opened FloodCounters

  /** What a mode handler tells the mode parser: apply the change or refuse it. */
  datatype ModeAction = ModeAllow | ModeDeny

  /** The result of a message hook: let other modules decide, allow, or block the message. */
  datatype ModResult = ResPassthru | ResAllow | ResDeny

  /** The actions taken against a flooder, in the order they are taken. */
  datatype Effect =
    | SetBan(who: User)        // the +b on the user's wild host, applied locally
    | SendBan(who: User)       // the same +b, sent to the rest of the network
    | Kick(who: User, reason: string)

  /** Where a message or notice is addressed. */
  datatype Target = ToChannel(ch: Channel) | ToUser(who: User)

  /** The kick reason, naming the limit in force. */
  function KickReason(p: FloodParam): string {
    "Channel flood triggered (limit is " + IntToString(p.lines) + " lines in " + IntToString(p.secs) + " secs)"
  }

  /** The actions against a flooder: a ban (local, then network-wide) when the settings ask for one, then the kick. */
  function Punishment(p: FloodParam, who: User): (r: seq<Effect>)
    ensures |r| == (if p.ban then 3 else 1) && r[|r| - 1] == Kick(who, KickReason(p))
    ensures p.ban ==> r[0] == SetBan(who) && r[1] == SendBan(who)
    ensures SetBan(who) in r <==> p.ban
    ensures SendBan(who) in r <==> p.ban
    ensures forall e :: e in r ==> e.who == who
  {
    (if p.ban then [SetBan(who), SendBan(who)] else []) + [Kick(who, KickReason(p))]
  }

  /**
   The decision for one message in a channel that has flood settings: an
   exempt message (from a remote user, or one a restriction override allows)
   passes untouched; otherwise the line is counted and a user who reaches the
   limit is cleared, punished and the message blocked.
   */
  function Decide(p: FloodParam, w: Window, user: User, isLocal: bool, restriction: ModResult, now: int)
    : (r: (Window, ModResult, seq<Effect>))
    ensures !isLocal || restriction == ResAllow ==> r == (w, ResPassthru, [])
    ensures r.1 != ResAllow
    ensures r.1 == ResDeny <==> r.2 != []
    ensures r.1 == ResDeny ==> user !in r.0.counters && r.2 == Punishment(p, user)
    ensures Bounded(w, p.lines) ==> Bounded(r.0, p.lines)
    ensures isLocal && restriction != ResAllow && Bounded(w, p.lines) && now <= w.reset ==>
      (r.1 == ResDeny <==> Count(w.counters, user) + 1 >= p.lines)
    ensures isLocal && restriction != ResAllow && now > w.reset ==>
      r == (Window(map[], now + p.secs), ResPassthru, [])
  {
    if !isLocal || restriction == ResAllow then (w, ResPassthru, [])
    else
      var s := Step(w, user, now, p.lines, p.secs);
      if s.1 then (s.0, ResDeny, Punishment(p, user)) else (s.0, ResPassthru, [])
  }

  /** A channel as far as mode +f is concerned: its flood settings, if any, and its stored +f parameter. */
  class Channel {
    var flood: FloodSettings?
    var floodParam: string

    /** A channel without mode +f. */
    constructor ()
      ensures flood == null && floodParam == ""
    {
      flood := null;
      floodParam := "";
    }

    /**
     The stored parameter is the canonical form of the stored settings (empty
     when there are none), the settings are ones the handler accepts, and no
     user's count stands at or above the limit.
     */
    ghost predicate Valid()
      reads this, flood
    {
      && (flood == null ==> floodParam == "")
      && (flood != null ==>
            && var p := FloodParam(flood.ban, flood.lines, flood.secs);
            && Acceptable(p)
            && floodParam == Canonical(p)
            && Bounded(flood.State(), flood.lines))
    }

    /** The settings as a parameter value; meaningful when `flood != null`. */
    function Param(): FloodParam
      reads this, flood
      requires flood != null
    {
      FloodParam(flood.ban, flood.lines, flood.secs)
    }
  }

  /**
   The parameter the mode currently has: the canonical form of the stored
   settings, or the given parameter unchanged when the mode is not set.
   */
  function ModeSet(ch: Channel, parameter: string): (r: (bool, string))
    reads ch, ch.flood
    ensures r.0 <==> ch.flood != null
    ensures !r.0 ==> r.1 == parameter
    ensures r.0 ==> Parse(r.1) == Some(ch.Param())
    ensures r.0 && ch.Valid() ==> r.1 == ch.floodParam
  {
    if ch.flood != null then
      ParseCanonical(ch.Param());
      (true, Canonical(ch.Param()))
    else
      (false, parameter)
  }

  /**
   How the mode handler reads a parameter: the text is copied as a C string,
   scanned for the first ':', and both halves are read with atoi (the lines
   after a leading '*').
   */
  method ReadParameter(parameter: string) returns (parsed: Option<FloodParam>)
    ensures parsed == Parse(parameter)
  {
    var colon := FindColon(parameter);
    if colon.None? {
      return None;
    }
    var data := CString(parameter);
    var k := colon.value;
    var ban := data[0] == '*';
    var nlines := Atoi(data[if ban then 1 else 0..k]);
    var nsecs := Atoi(data[k + 1..]);
    return Some(FloodParam(ban, nlines, nsecs));
  }

  /** Stores fresh settings `p` in the channel, with empty counters, and their canonical parameter. */
  method Install(ch: Channel, p: FloodParam, now: int)
    requires Acceptable(p)
    modifies ch
    ensures ch.Valid()
    ensures ch.flood != null && fresh(ch.flood)
    ensures ch.Param() == p && ch.flood.State() == Window(map[], now + p.secs)
    ensures ch.floodParam == Canonical(p)
  {
    var f := new FloodSettings(p.ban, p.secs, p.lines, now);
    ch.flood := f;
    ch.floodParam := Canonical(p);
  }

  /**
   Setting mode +f with `parameter` at time `now`: returns the action, the
   parameter as rewritten for the mode change, and whether the "Invalid flood
   parameter" numeric is sent to the source.
   */
  method SetFlood(ch: Channel, parameter: string, now: int)
    returns (action: ModeAction, parameter': string, invalid: bool)
    requires ch.Valid()
    modifies ch
    ensures ch.Valid()
    // A parameter without ':', or with values out of range, is refused and cleared.
    ensures Parse(parameter).None? || !Acceptable(Parse(parameter).value) ==>
      && action == ModeDeny && invalid && parameter' == ""
      && ch.flood == old(ch.flood) && ch.floodParam == old(ch.floodParam)
    // An acceptable parameter is rewritten to its canonical form; re-applying the
    // current settings is refused, anything else installs fresh settings.
    ensures Parse(parameter).Some? && Acceptable(Parse(parameter).value) ==>
      var p := Parse(parameter).value;
      && !invalid && parameter' == Canonical(p)
      && if old(ch.flood) != null && old(ch.Param()) == p then
           && action == ModeDeny
           && ch.flood == old(ch.flood) && ch.floodParam == old(ch.floodParam)
         else
           && action == ModeAllow
           && ch.flood != null && fresh(ch.flood)
           && ch.Param() == p && ch.flood.State() == Window(map[], now + p.secs)
           && ch.floodParam == parameter'
  {
    var f := ch.flood;
    var parsed := ReadParameter(parameter);
    if parsed.None? || parsed.value.lines < 2 || parsed.value.secs < 1 {
      return ModeDeny, "", true;
    }
    var p := parsed.value;
    parameter' := Canonical(p);
    if f == null {
      Install(ch, p, now);
      return ModeAllow, parameter', false;
    }
    var current := ch.floodParam;
    CanonicalInjective(ch.Param(), p);
    if current == parameter' {
      return ModeDeny, parameter', false;
    }
    if (p.lines != f.lines || p.secs != f.secs || p.ban != f.ban) && (p.secs > 0 && p.lines > 0) {
      Install(ch, p, now);
      return ModeAllow, parameter', false;
    }
    return ModeDeny, parameter', false;
  }

  /** Removing mode +f: allowed exactly when settings exist; none exist afterwards. */
  method UnsetFlood(ch: Channel) returns (action: ModeAction)
    requires ch.Valid()
    modifies ch
    ensures ch.Valid()
    ensures ch.flood == null && ch.floodParam == ""
    ensures action == ModeAllow <==> old(ch.flood) != null
  {
    if ch.flood != null {
      ch.flood := null;
      ch.floodParam := "";
      return ModeAllow;
    }
    return ModeDeny;
  }

  /**
   Setting (`adding`) or removing mode +f with `parameter` at time `now`.
   Removal leaves the parameter as it is and never sends the numeric.
   */
  method OnModeChange(ch: Channel, parameter: string, adding: bool, now: int)
    returns (action: ModeAction, parameter': string, invalid: bool)
    requires ch.Valid()
    modifies ch
    ensures ch.Valid()
    ensures !adding ==>
      && parameter' == parameter && !invalid
      && ch.flood == null && ch.floodParam == ""
      && (action == ModeAllow <==> old(ch.flood) != null)
    ensures adding && (Parse(parameter).None? || !Acceptable(Parse(parameter).value)) ==>
      && action == ModeDeny && invalid && parameter' == ""
      && ch.flood == old(ch.flood) && ch.floodParam == old(ch.floodParam)
    ensures adding && Parse(parameter).Some? && Acceptable(Parse(parameter).value) ==>
      var p := Parse(parameter).value;
      && !invalid && parameter' == Canonical(p)
      && if old(ch.flood) != null && old(ch.Param()) == p then
           && action == ModeDeny
           && ch.flood == old(ch.flood) && ch.floodParam == old(ch.floodParam)
         else
           && action == ModeAllow
           && ch.flood != null && fresh(ch.flood)
           && ch.Param() == p && ch.flood.State() == Window(map[], now + p.secs)
           && ch.floodParam == parameter'
    ensures adding && action == ModeAllow ==> ModeSet(ch, parameter) == (true, parameter')
  {
    if adding {
      action, parameter', invalid := SetFlood(ch, parameter, now);
    } else {
      action := UnsetFlood(ch);
      parameter', invalid := parameter, false;
    }
  }

  /**
   A message from `user` to channel `ch` at time `now`. `isLocal` says whether
   the user is connected to this server; `restriction` is what the
   restriction-override hook answered for "flood".
   */
  method ProcessMessages(ch: Channel, user: User, isLocal: bool, restriction: ModResult, now: int)
    returns (res: ModResult, effects: seq<Effect>)
    requires ch.Valid()
    modifies ch.flood
    ensures ch.Valid()
    ensures ch.flood == null ==> res == ResPassthru && effects == []
    ensures ch.flood != null ==>
      var d := Decide(old(ch.Param()), old(ch.flood.State()), user, isLocal, restriction, now);
      && ch.Param() == old(ch.Param())
      && ch.flood.State() == d.0 && res == d.1 && effects == d.2
  {
    if !isLocal || restriction == ResAllow {
      return ResPassthru, [];
    }
    var f := ch.flood;
    if f != null {
      f.AddMessage(user, now);
      if f.ShouldKick(user) {
        f.Clear(user);
        effects := [];
        if f.ban {
          effects := effects + [SetBan(user), SendBan(user)];
        }
        effects := effects + [Kick(user, KickReason(FloodParam(f.ban, f.lines, f.secs)))];
        return ResDeny, effects;
      }
    }
    return ResPassthru, [];
  }

  /** The message and notice hooks: only messages to a channel are checked. */
  method OnUserPreMessage(user: User, target: Target, isLocal: bool, restriction: ModResult, now: int)
    returns (res: ModResult, effects: seq<Effect>)
    requires target.ToChannel? ==> target.ch.Valid()
    modifies if target.ToChannel? then {target.ch.flood} else {}
    ensures target.ToChannel? ==> target.ch.Valid()
    ensures target.ToUser? || target.ch.flood == null ==> res == ResPassthru && effects == []
    ensures target.ToChannel? && target.ch.flood != null ==>
      var ch := target.ch;
      var d := Decide(old(ch.Param()), old(ch.flood.State()), user, isLocal, restriction, now);
      && ch.Param() == old(ch.Param())
      && ch.flood.State() == d.0 && res == d.1 && effects == d.2
  {
    if target.ToChannel? {
      res, effects := ProcessMessages(target.ch, user, isLocal, restriction, now);
      return;
    }
    return ResPassthru, [];
  }
}
