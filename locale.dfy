/**
 * The users collection and the language preference: get_user_language and
 * get_text (bot.py:113-119), the language chosen by a menu button
 * (bot.py:140-147, bot.py:160) and the upsert of language_callback
 * (bot.py:162-172) under the unique index on user_id (bot.py:42).
 */
module Locale {
  import opened Wrappers
  import opened Strings
  import opened Telegram

  /** The message keys of the LANGUAGES table. */
  datatype Key = Name | Welcome | FileSaved | FileNotFound | FileRetrieved | SendFile | ChooseLanguage | LanguageSet

  /** LANGUAGES: language tag to message key to text. */
  type Table = map<string, map<Key, string>>

  const DefaultLanguage: string := "en"

  /** The tags offered by the /start menu, in button order (three rows of two). */
  const MenuLanguages: seq<string> := ["en", "he", "es", "ko", "fr", "zh"]

  /** What the code assumes of LANGUAGES: English defines every key, and every menu language has a name. */
  predicate TableOk(texts: Table)
  {
    && DefaultLanguage in texts
    && (forall k: Key :: k in texts[DefaultLanguage])
    && (forall i :: 0 <= i < |MenuLanguages| ==> MenuLanguages[i] in texts && Name in texts[MenuLanguages[i]])
  }

  /** A document of the users collection. */
  datatype UserRecord = UserRecord(
    userId: int,
    username: Option<string>,
    firstName: string,
    language: Option<string>,
    createdAt: int)

  /** The users collection, by user_id. */
  type Users = map<int, UserRecord>

  /** The unique index on user_id: the record found under an id carries that id. */
  predicate UsersIndexed(users: Users)
  {
    forall id :: id in users ==> users[id].userId == id
  }

  /**
   * get_user_language as bot.py:113-115 is written: the lookup reads `user.id`
   * while `user` is the function's own local, not yet assigned, so every call
   * raises UnboundLocalError before the collection is consulted.
   */
  function GetUserLanguageAsWritten(users: Users, userId: int): Result<string>
  {
    Err(UnboundLocalError)
  }

  /** get_user_language as intended: the stored language of user_id, or 'en' when there is none. */
  function GetUserLanguage(users: Users, userId: int): (tag: string)
    ensures userId in users && users[userId].language.Some? ==> tag == users[userId].language.value
    ensures userId !in users || users[userId].language.None? ==> tag == DefaultLanguage
  {
    if userId in users then
      match users[userId].language
      case Some(tag) => tag
      case None => DefaultLanguage
    else DefaultLanguage
  }

  /** The lookup written at bot.py:114 never returns what the intended lookup returns. */
  lemma LookupAsWrittenNeverAnswers(users: Users, userId: int)
    ensures GetUserLanguageAsWritten(users, userId) != Ok(GetUserLanguage(users, userId))
  {
  }

  /** A user who chose Hebrew: the intended lookup answers "he", the written one raises. */
  lemma LookupAsWrittenExample()
    ensures var users := map[7 := UserRecord(7, None, "Dana", Some("he"), 0)];
      GetUserLanguage(users, 7) == "he" && GetUserLanguageAsWritten(users, 7).Err?
  {
  }

  /** LANGUAGES[lang].get(key, LANGUAGES['en'][key]) for a given language tag. */
  function Lookup(texts: Table, lang: string, key: Key): Result<string>
  {
    if lang !in texts then Err(KeyError)
    else if DefaultLanguage !in texts || key !in texts[DefaultLanguage] then Err(KeyError)
    else if key in texts[lang] then Ok(texts[lang][key])
    else Ok(texts[DefaultLanguage][key])
  }

  /**
   * get_text as intended: the user's language's text for the key, falling back to
   * English. Both subscripts are evaluated eagerly, so a language missing from the
   * table, or a key English lacks, raises KeyError even when the other lookup
   * would have succeeded.
   */
  function GetText(texts: Table, users: Users, userId: int, key: Key): (r: Result<string>)
    ensures var lang := GetUserLanguage(users, userId);
      && (r.Ok? <==> lang in texts && DefaultLanguage in texts && key in texts[DefaultLanguage])
      && (r.Ok? && key in texts[lang] ==> r.value == texts[lang][key])
      && (r.Ok? && key !in texts[lang] ==> r.value == texts[DefaultLanguage][key])
    ensures r.Err? ==> r.error == KeyError
  {
    Lookup(texts, GetUserLanguage(users, userId), key)
  }

  /** get_text (bot.py:117-119) over the lookup as written: the UnboundLocalError propagates. */
  function GetTextAsWritten(texts: Table, users: Users, userId: int, key: Key): (r: Result<string>)
    ensures r == Err(UnboundLocalError)
  {
    match GetUserLanguageAsWritten(users, userId)
    case Err(e) => Err(e)
    case Ok(lang) => Lookup(texts, lang, key)
  }

  /** A user with no record, or whose record has no language, is answered in English. */
  lemma EnglishByDefault(texts: Table, users: Users, userId: int, key: Key)
    requires TableOk(texts)
    requires userId !in users || users[userId].language.None?
    ensures GetText(texts, users, userId, key) == Ok(texts[DefaultLanguage][key])
  {
  }

  /** Every language the user may have chosen from the menu yields a text for every key. */
  lemma GetTextDefined(texts: Table, users: Users, userId: int, key: Key)
    requires TableOk(texts)
    requires userId in users && users[userId].language.Some? ==> users[userId].language.value in texts
    ensures GetText(texts, users, userId, key).Ok?
  {
  }

  // ---------------------------------------------------------------------------
  // The language menu and its callback data

  const CallbackPrefix: string := "lang_"

  /** The callback_data of the menu button for a language. */
  function CallbackData(tag: string): (data: string)
    ensures StartsWith(data, CallbackPrefix) && data[|CallbackPrefix|..] == tag
  {
    CallbackPrefix + tag
  }

  /**
   * language_callback's query.data.split('_')[1]: the handler is registered for
   * data matching '^lang_' (bot.py:332), so field 1 is what follows "lang_" up to
   * the next '_'.
   */
  function CallbackLanguage(data: string): (tag: string)
    requires StartsWith(data, CallbackPrefix)
    ensures '_' !in tag
    ensures StartsWith(data[|CallbackPrefix|..], tag)
    ensures |data| == |CallbackPrefix| + |tag| || data[|CallbackPrefix| + |tag|] == '_'
  {
    TakeUntil(data[|CallbackPrefix|..], '_')
  }

  /** The callback data of a tag without '_' reads back as that tag. */
  lemma CallbackRoundTrip(tag: string)
    requires '_' !in tag
    ensures CallbackLanguage(CallbackData(tag)) == tag
  {
    assert CallbackData(tag)[|CallbackPrefix|..] == tag;
  }

  /** An InlineKeyboardButton: its text and its callback_data. */
  datatype Button = Button(text: string, data: string)

  /** The /start keyboard (bot.py:140-147), row by row: each language's name, sending "lang_<tag>". */
  function LanguageMenu(texts: Table): (buttons: seq<Button>)
    requires TableOk(texts)
    ensures |buttons| == |MenuLanguages|
    ensures forall i :: 0 <= i < |buttons| ==> buttons[i].text == texts[MenuLanguages[i]][Name]
    ensures forall i :: 0 <= i < |buttons| ==>
      StartsWith(buttons[i].data, CallbackPrefix) && CallbackLanguage(buttons[i].data) == MenuLanguages[i]
  {
    var buttons := seq(|MenuLanguages|, i requires 0 <= i < |MenuLanguages| =>
      Button(texts[MenuLanguages[i]][Name], CallbackData(MenuLanguages[i])));
    assert forall i :: 0 <= i < |buttons| ==>
      StartsWith(buttons[i].data, CallbackPrefix) && CallbackLanguage(buttons[i].data) == MenuLanguages[i] by {
      forall i | 0 <= i < |buttons|
        ensures StartsWith(buttons[i].data, CallbackPrefix) && CallbackLanguage(buttons[i].data) == MenuLanguages[i]
      {
        MenuTagPlain(i);
        CallbackRoundTrip(MenuLanguages[i]);
      }
    }
    buttons
  }

  /** No menu tag contains the '_' that split() cuts at. */
  lemma MenuTagPlain(i: nat)
    requires i < |MenuLanguages|
    ensures '_' !in MenuLanguages[i]
  {
  }

  // ---------------------------------------------------------------------------
  // The upsert of language_callback

  /**
   * users_collection.update_one({'user_id': id}, {'$set': {...}}, upsert=True):
   * the record for the user is created or has every field overwritten, including
   * created_at; no other record changes.
   */
  function Upsert(users: Users, user: User, language: string, now: int): (r: Users)
    ensures r.Keys == users.Keys + {user.id}
    ensures r[user.id] == UserRecord(user.id, user.username, user.firstName, Some(language), now)
    ensures forall id :: id in users && id != user.id ==> r[id] == users[id]
  {
    users[user.id := UserRecord(user.id, user.username, user.firstName, Some(language), now)]
  }

  /** The upsert keeps the unique index on user_id and adds a record only for a new user. */
  lemma UpsertKeepsIndex(users: Users, user: User, language: string, now: int)
    requires UsersIndexed(users)
    ensures UsersIndexed(Upsert(users, user, language, now))
    ensures |Upsert(users, user, language, now)| == if user.id in users then |users| else |users| + 1
  {
    var r := Upsert(users, user, language, now);
    if user.id in users {
      assert r.Keys == users.Keys;
    } else {
      assert r.Keys == users.Keys + {user.id};
    }
  }

  /** After the upsert the user's language is the chosen one. */
  lemma UpsertThenLookup(users: Users, user: User, language: string, now: int)
    ensures GetUserLanguage(Upsert(users, user, language, now), user.id) == language
  {
  }

  /** Choosing again overwrites: two upserts for one user leave what the last alone would. */
  lemma UpsertLastWins(users: Users, user: User, first: string, second: string, t1: int, t2: int)
    ensures Upsert(Upsert(users, user, first, t1), user, second, t2) == Upsert(users, user, second, t2)
  {
  }
}
