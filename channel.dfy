/**
 * get_channel_identifier (bot.py:121-131): the archive channel named by the
 * PRIVATE_CHANNEL_ID environment variable, read as a "@handle", as a numeric
 * chat id, or as a plain string when it does not read as an integer.
 */
module Channel {
  import opened Wrappers
  import opened Numerals
  import opened Strings

  /** What forward_message accepts as a chat: a name or a numeric id. */
  datatype ChatRef = ByName(name: string) | ById(id: int)

  /**
   * get_channel_identifier() for the value of PRIVATE_CHANNEL_ID (None when it is
   * unset, so that .strip() raises AttributeError). A "-100..." value goes
   * through int() outside the try, so a malformed one raises ValueError.
   */
  function GetChannelIdentifier(env: Option<string>): (r: Result<ChatRef>)
    ensures env.None? <==> r == Err(AttributeError)
    ensures r.Err? ==> r.error == AttributeError || r.error == ValueError
    ensures r == Err(ValueError) <==>
      env.Some? && StartsWith(Strip(env.value), "-100") && !IsIntLiteral(Strip(env.value))
    ensures r.Ok? && r.value.ById? ==>
      !StartsWith(Strip(env.value), "@") && ParseInt(Strip(env.value)) == Some(r.value.id)
    ensures r.Ok? && r.value.ByName? ==>
      r.value.name == Strip(env.value)
      && (StartsWith(r.value.name, "@") || !IsIntLiteral(r.value.name))
  {
    match env
    case None => Err(AttributeError)
    case Some(raw) =>
      var channel := Strip(raw);
      if StartsWith(channel, "@") then Ok(ByName(channel))
      else if StartsWith(channel, "-100") then
        match ParseInt(channel)
        case Some(n) => Ok(ById(n))
        case None => Err(ValueError)
      else
        match ParseInt(channel)
        case Some(n) => Ok(ById(n))
        case None => Ok(ByName(channel))
  }

  /** A channel configured by its numeric id, with any surrounding whitespace, is addressed by that id. */
  lemma NumericChannel(n: int, before: string, after: string)
    requires forall i :: 0 <= i < |before| ==> IsSpace(before[i])
    requires forall i :: 0 <= i < |after| ==> IsSpace(after[i])
    ensures GetChannelIdentifier(Some(before + IntString(n) + after)) == Ok(ById(n))
  {
    var s := IntString(n);
    StripPadded(before, s, after);
    ParseIntString(n);
    assert !StartsWith(s, "@");
  }

  /**
   * A channel configured by a plain name that is neither an integer nor a "-100"
   * prefix, with any surrounding whitespace, is addressed by that name.
   */
  lemma NamedChannel(name: string, before: string, after: string)
    requires |name| >= 1 && !IsSpace(name[0]) && !IsSpace(name[|name| - 1])
    requires !StartsWith(name, "-100") && !IsIntLiteral(name)
    requires forall i :: 0 <= i < |before| ==> IsSpace(before[i])
    requires forall i :: 0 <= i < |after| ==> IsSpace(after[i])
    ensures GetChannelIdentifier(Some(before + name + after)) == Ok(ByName(name))
  {
    StripPadded(before, name, after);
  }

  /** A channel configured by a handle, with any surrounding whitespace, is addressed by that handle. */
  lemma HandleChannel(handle: string, before: string, after: string)
    requires StartsWith(handle, "@") && !IsSpace(handle[|handle| - 1])
    requires forall i :: 0 <= i < |before| ==> IsSpace(before[i])
    requires forall i :: 0 <= i < |after| ==> IsSpace(after[i])
    ensures GetChannelIdentifier(Some(before + handle + after)) == Ok(ByName(handle))
  {
    StripPadded(before, handle, after);
  }
}
