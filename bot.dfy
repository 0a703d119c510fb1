/**
 * The relay bot's state and handlers: the files and users collections with
 * their unique indexes (bot.py:38-42), the private archive channel that files
 * are forwarded into, generate_unique_id (bot.py:107-111), start
 * (bot.py:133-153), language_callback (bot.py:155-175), handle_file
 * (bot.py:212-294) and get_file (bot.py:296-325).
 */
module Bot {
  import opened Wrappers
  import opened Numerals
  import opened Strings
  import opened Channel
  import opened Telegram
  import opened Media
  import opened Locale

  /** A document of the files collection. */
  datatype FileRecord = FileRecord(
    uniqueId: string,
    userId: int,
    username: Option<string>,
    firstName: string,
    fileId: string,
    fileType: MediaKind,
    fileName: Option<string>,
    fileSize: Option<int>,
    channelMessageId: int,
    originalMessageId: int,
    createdAt: int)

  /** The files collection, by unique_id. */
  type Files = map<string, FileRecord>

  /** The unique index on unique_id: the record found under a token carries that token. */
  predicate FilesIndexed(files: Files)
  {
    forall t :: t in files ==> files[t].uniqueId == t
  }

  /** files_collection.insert_one: rejected with DuplicateKeyError when the unique_id is taken. */
  function Insert(files: Files, rec: FileRecord): (r: Result<Files>)
    ensures r.Ok? <==> rec.uniqueId !in files
    ensures r.Err? ==> r.error == DuplicateKeyError
    ensures r.Ok? ==> r.value.Keys == files.Keys + {rec.uniqueId} && r.value[rec.uniqueId] == rec
    ensures r.Ok? ==> forall t :: t in files ==> r.value[t] == files[t]
  {
    if rec.uniqueId in files then Err(DuplicateKeyError) else Ok(files[rec.uniqueId := rec])
  }

  /** An insert adds exactly one record and keeps one record per unique_id. */
  lemma InsertKeepsIndex(files: Files, rec: FileRecord)
    requires FilesIndexed(files)
    ensures Insert(files, rec).Ok? ==> FilesIndexed(Insert(files, rec).value)
    ensures Insert(files, rec).Ok? ==> |Insert(files, rec).value| == |files| + 1
  {
    if rec.uniqueId !in files {
      assert Insert(files, rec).value.Keys == files.Keys + {rec.uniqueId};
    }
  }

  /** The draw at index i is free: its printed form is not a key of files. */
  predicate FreeAt(files: Files, candidates: seq<nat>, i: int)
  {
    0 <= i < |candidates| && DecimalString(candidates[i]) !in files
  }

  /** The preconditions on the draws of random.randint: each in range, one not yet taken. */
  predicate Drawable(files: Files, candidates: seq<nat>)
  {
    && (forall i :: 0 <= i < |candidates| ==> TokenLow <= candidates[i] <= TokenHigh)
    && (exists i :: 0 <= i < |candidates| && FreeAt(files, candidates, i))
  }

  /** The index of the first free draw at or after from. */
  function FirstFreeIndex(files: Files, candidates: seq<nat>, from: nat): (k: nat)
    requires exists i :: from <= i && FreeAt(files, candidates, i)
    ensures from <= k && FreeAt(files, candidates, k)
    ensures forall j :: from <= j < k ==> !FreeAt(files, candidates, j)
    decreases |candidates| - from
  {
    if FreeAt(files, candidates, from) then from
    else
      FirstFreeIndex(files, candidates, from + 1)
  }

  /** The token generate_unique_id returns: the printed form of the first free draw. */
  function FirstFree(files: Files, candidates: seq<nat>): (t: string)
    requires Drawable(files, candidates)
    ensures IsToken(t) && t !in files
    ensures t == DecimalString(candidates[FirstFreeIndex(files, candidates, 0)])
    ensures forall j :: 0 <= j < FirstFreeIndex(files, candidates, 0) ==> DecimalString(candidates[j]) in files
  {
    var k := FirstFreeIndex(files, candidates, 0);
    CandidateToken(candidates[k]);
    assert forall j :: 0 <= j < k ==> DecimalString(candidates[j]) in files by {
      forall j | 0 <= j < k ensures DecimalString(candidates[j]) in files {
        assert !FreeAt(files, candidates, j);
      }
    }
    DecimalString(candidates[k])
  }

  /** A first draw that is not taken yet is the token: the loop body runs no more than once. */
  lemma FirstDrawFree(files: Files, candidates: seq<nat>)
    requires |candidates| >= 1 && forall i :: 0 <= i < |candidates| ==> TokenLow <= candidates[i] <= TokenHigh
    requires DecimalString(candidates[0]) !in files
    ensures Drawable(files, candidates) && FirstFree(files, candidates) == DecimalString(candidates[0])
  {
    assert FreeAt(files, candidates, 0);
  }

  /** Where a file was relayed from: the user's chat and message. */
  datatype Origin = Origin(fromChat: int, messageId: int)

  /** The archive channel's copy named by a record exists and is a copy of the record's original message. */
  predicate Backed(archive: map<int, Origin>, rec: FileRecord)
  {
    rec.channelMessageId in archive && archive[rec.channelMessageId].messageId == rec.originalMessageId
  }

  /**
   * The invariant tying the files collection to the archive channel: one record
   * per token, every token minted by the generator, every record backed by its
   * own archived copy, and every archived copy older than the next one.
   */
  ghost predicate Consistent(files: Files, archive: map<int, Origin>, nextMessageId: int)
  {
    && FilesIndexed(files)
    && (forall t :: t in files ==> IsToken(t))
    && (forall t :: t in files ==> Backed(archive, files[t]))
    && (forall t, u :: t in files && u in files && t != u ==> files[t].channelMessageId != files[u].channelMessageId)
    && (forall id :: id in archive ==> id < nextMessageId)
  }

  /** A relay with no record after it leaves an orphan copy in the archive, which is harmless. */
  lemma RelayKeepsConsistent(files: Files, archive: map<int, Origin>, nextMessageId: int, origin: Origin)
    requires Consistent(files, archive, nextMessageId)
    ensures Consistent(files, archive[nextMessageId := origin], nextMessageId + 1)
  {
  }

  /**
   * Record after relay: a record inserted under a fresh token, naming an archived
   * copy of its own message that no other record names, keeps every record
   * backed by a copy of its own message.
   */
  lemma RecordKeepsConsistent(files: Files, archive: map<int, Origin>, nextMessageId: int, rec: FileRecord)
    requires Consistent(files, archive, nextMessageId)
    requires IsToken(rec.uniqueId) && rec.uniqueId !in files
    requires Backed(archive, rec)
    requires forall t :: t in files ==> files[t].channelMessageId != rec.channelMessageId
    ensures Consistent(files[rec.uniqueId := rec], archive, nextMessageId)
  {
    var files' := files[rec.uniqueId := rec];
    forall t, u | t in files' && u in files' && t != u
      ensures files'[t].channelMessageId != files'[u].channelMessageId
    {
      if t != rec.uniqueId && u != rec.uniqueId {
        assert files'[t] == files[t] && files'[u] == files[u];
      }
    }
  }

  /** What a handler does towards the user. */
  datatype Response =
    | Localized(key: Key, text: string, arg: Option<string>)  // reply_text(get_text(key).format(arg))
    | ErrorReply                                               // the "Error: ..." reply of a handler's except clause
    | Menu(buttons: seq<Button>)                               // the /start language keyboard
    | Unhandled                                                // an exception escaped the handler: nothing is sent

  /** A localized reply built outside any try: a failing get_text escapes the handler. */
  function Say(texts: Table, users: Users, userId: int, key: Key, arg: Option<string>): Response
  {
    match GetText(texts, users, userId, key)
    case Ok(text) => Localized(key, text, arg)
    case Err(_) => Unhandled
  }

  /** A localized reply built inside the handler's try: a failing get_text becomes the error reply. */
  function InTry(key: Key, text: Result<string>, arg: Option<string>): Response
  {
    match text
    case Ok(text) => Localized(key, text, arg)
    case Err(_) => ErrorReply
  }

  /** InTry over get_text as intended. */
  function SayInTry(texts: Table, users: Users, userId: int, key: Key, arg: Option<string>): Response
  {
    InTry(key, GetText(texts, users, userId, key), arg)
  }

  /** InTry over get_text as written (bot.py:114): every such reply is the error reply. */
  function SayInTryAsWritten(texts: Table, users: Users, userId: int, key: Key, arg: Option<string>): Response
  {
    InTry(key, GetTextAsWritten(texts, users, userId, key), arg)
  }

  /** A message handle_file stores: it has media, and the chosen file_id is not empty (bot.py:258). */
  predicate Storable(m: Message)
  {
    Classify(m).Some? && Classify(m).value.fileId != ""
  }

  /** The document handle_file inserts (bot.py:273-285). */
  function NewRecord(token: string, user: User, media: Media, channelMessageId: int, m: Message, now: int): FileRecord
  {
    FileRecord(token, user.id, user.username, user.firstName, media.fileId, media.kind, media.fileName,
               media.fileSize, channelMessageId, m.messageId, now)
  }

  /**
   * The bot's view of the world: the LANGUAGES table and PRIVATE_CHANNEL_ID it was
   * started with, the two collections, and the archive channel (its messages by
   * message_id, and the id the next forwarded copy receives).
   */
  class FileBot {
    const texts: Table
    const channelEnv: Option<string>
    var files: Files
    var users: Users
    var archive: map<int, Origin>
    var nextMessageId: int

    ghost predicate Valid()
      reads this
    {
      && TableOk(texts)
      && UsersIndexed(users)
      && Consistent(files, archive, nextMessageId)
    }

    constructor (texts: Table, channelEnv: Option<string>)
      requires TableOk(texts)
      ensures Valid()
      ensures this.texts == texts && this.channelEnv == channelEnv
      ensures files == map[] && users == map[] && archive == map[]
    {
      this.texts := texts;
      this.channelEnv := channelEnv;
      files := map[];
      users := map[];
      archive := map[];
      nextMessageId := 1;
    }

    /**
     * generate_unique_id: draws candidates until one, printed, is not a key of
     * the files collection. The collection is only read.
     */
    method GenerateUniqueId(candidates: seq<nat>) returns (token: string)
      requires Drawable(files, candidates)
      ensures token == FirstFree(files, candidates)
      ensures IsToken(token) && token !in files
    {
      ghost var k := FirstFreeIndex(files, candidates, 0);
      var i := 0;
      token := DecimalString(candidates[0]);
      while token in files
        invariant 0 <= i <= k
        invariant token == DecimalString(candidates[i])
        decreases k - i
      {
        i := i + 1;
        token := DecimalString(candidates[i]);
      }
    }

    /** files_collection.insert_one(rec) under the unique index on unique_id. */
    method InsertOne(rec: FileRecord) returns (ok: bool)
      modifies this`files
      ensures ok <==> rec.uniqueId !in old(files)
      ensures ok ==> Insert(old(files), rec) == Ok(files)
      ensures !ok ==> files == old(files)
    {
      ok := rec.uniqueId !in files;
      if ok {
        files := files[rec.uniqueId := rec];
      }
    }

    /**
     * forward_message into the archive channel: on success the channel holds a new
     * message, a copy of (fromChat, messageId), under a fresh id.
     */
    method ForwardToArchive(fromChat: int, messageId: int, succeeds: bool) returns (copy: Option<int>)
      modifies this`archive, this`nextMessageId
      ensures !succeeds ==> copy == None && archive == old(archive) && nextMessageId == old(nextMessageId)
      ensures succeeds ==> copy == Some(old(nextMessageId)) && nextMessageId == old(nextMessageId) + 1
      ensures succeeds ==> archive == old(archive)[old(nextMessageId) := Origin(fromChat, messageId)]
    {
      if succeeds {
        copy := Some(nextMessageId);
        archive := archive[nextMessageId := Origin(fromChat, messageId)];
        nextMessageId := nextMessageId + 1;
      } else {
        copy := None;
      }
    }

    /**
     * handle_file: classify the media; relay the message into the archive channel;
     * only then mint a token and insert the record; confirm with the token.
     * forwardSucceeds says whether Telegram accepts the forward; candidates are the
     * draws of random.randint; now is datetime.utcnow().
     */
    method HandleFile(user: User, m: Message, forwardSucceeds: bool, candidates: seq<nat>, now: int)
      returns (reply: Response)
      requires Valid()
      requires Drawable(files, candidates)
      modifies this`files, this`archive, this`nextMessageId
      ensures Valid()
      ensures !Storable(m) ==>
        reply == Say(texts, users, user.id, SendFile, None)
        && files == old(files) && archive == old(archive)
      ensures Storable(m) && GetChannelIdentifier(channelEnv).Err? ==>
        reply == ErrorReply && files == old(files) && archive == old(archive)
      ensures Storable(m) && GetChannelIdentifier(channelEnv).Ok? && !forwardSucceeds ==>
        reply == ErrorReply && files == old(files) && archive == old(archive)
      ensures Storable(m) && GetChannelIdentifier(channelEnv).Ok? && forwardSucceeds ==>
        var token := FirstFree(old(files), candidates);
        && archive == old(archive)[old(nextMessageId) := Origin(m.chatId, m.messageId)]
        && files == old(files)[token := NewRecord(token, user, Classify(m).value, old(nextMessageId), m, now)]
        && reply == SayInTry(texts, users, user.id, FileSaved, Some(token))
      ensures files != old(files) ==>
        forwardSucceeds && old(nextMessageId) !in old(archive) && old(nextMessageId) in archive
        && |files| == |old(files)| + 1
    {
      var media := Classify(m);
      if media.None? || media.value.fileId == "" {
        reply := Say(texts, users, user.id, SendFile, None);
        return;
      }
      var channel := GetChannelIdentifier(channelEnv);
      if channel.Err? {
        reply := ErrorReply;
        return;
      }
      reply := RelayAndRecord(user, media.value, m, forwardSucceeds, candidates, now);
    }

    /**
     * The part of handle_file after the checks (bot.py:262-288): forward the message
     * into the archive channel and, only if that succeeded, record it.
     */
    method RelayAndRecord(user: User, media: Media, m: Message, forwardSucceeds: bool, candidates: seq<nat>, now: int)
      returns (reply: Response)
      requires Valid()
      requires Drawable(files, candidates)
      modifies this`files, this`archive, this`nextMessageId
      ensures Valid()
      ensures !forwardSucceeds ==>
        reply == ErrorReply && files == old(files) && archive == old(archive)
      ensures forwardSucceeds ==>
        var token := FirstFree(old(files), candidates);
        && archive == old(archive)[old(nextMessageId) := Origin(m.chatId, m.messageId)]
        && files == old(files)[token := NewRecord(token, user, media, old(nextMessageId), m, now)]
        && reply == SayInTry(texts, users, user.id, FileSaved, Some(token))
        && |files| == |old(files)| + 1
    {
      ghost var files0, archive0, next0 := files, archive, nextMessageId;
      var copy := ForwardToArchive(m.chatId, m.messageId, forwardSucceeds);
      if copy.None? {
        reply := ErrorReply;
        return;
      }
      RelayKeepsConsistent(files0, archive0, next0, Origin(m.chatId, m.messageId));
      reply := MintAndInsert(user, media, m, copy.value, candidates, now);
    }

    /**
     * The part of handle_file after the forward succeeded (bot.py:271-288): mint a
     * token, insert the record naming the archived copy, confirm with the token.
     */
    method MintAndInsert(user: User, media: Media, m: Message, copy: int, candidates: seq<nat>, now: int)
      returns (reply: Response)
      requires Valid()
      requires Drawable(files, candidates)
      requires copy == nextMessageId - 1 && copy in archive && archive[copy] == Origin(m.chatId, m.messageId)
      requires forall t :: t in files ==> files[t].channelMessageId != copy
      modifies this`files
      ensures Valid()
      ensures var token := FirstFree(old(files), candidates);
        && files == old(files)[token := NewRecord(token, user, media, copy, m, now)]
        && reply == SayInTry(texts, users, user.id, FileSaved, Some(token))
      ensures |files| == |old(files)| + 1
    {
      var token := GenerateUniqueId(candidates);
      var rec := NewRecord(token, user, media, copy, m, now);
      ghost var files0 := files;
      RecordKeepsConsistent(files0, archive, nextMessageId, rec);
      var inserted := InsertOne(rec);
      if inserted {
        reply := SayInTry(texts, users, user.id, FileSaved, Some(token));
      } else {
        reply := ErrorReply;
      }
    }

    /**
     * get_file: /file <token>. Without an argument, prompt; with an unknown token,
     * say so and forward nothing; otherwise forward the archived copy named by the
     * record to the user. delivered is the channel message id passed to
     * forward_message, if it was called; deliverySucceeds says whether Telegram
     * accepts that forward. The collections are only read.
     */
    method GetFile(user: User, args: seq<string>, deliverySucceeds: bool)
      returns (reply: Response, delivered: Option<int>)
      requires Valid()
      ensures args == [] ==> reply == Say(texts, users, user.id, SendFile, None) && delivered == None
      ensures args != [] && args[0] !in files ==>
        reply == Say(texts, users, user.id, FileNotFound, Some(args[0])) && delivered == None
      ensures args != [] && args[0] in files && GetChannelIdentifier(channelEnv).Err? ==>
        reply == ErrorReply && delivered == None
      ensures args != [] && args[0] in files && GetChannelIdentifier(channelEnv).Ok? ==>
        && delivered == Some(files[args[0]].channelMessageId)
        && reply == (if deliverySucceeds then SayInTry(texts, users, user.id, FileRetrieved, Some(args[0])) else ErrorReply)
      ensures delivered.Some? ==> args != [] && args[0] in files && Backed(archive, files[args[0]])
    {
      if args == [] {
        reply, delivered := Say(texts, users, user.id, SendFile, None), None;
        return;
      }
      var token := args[0];
      if token !in files {
        reply, delivered := Say(texts, users, user.id, FileNotFound, Some(token)), None;
        return;
      }
      var record := files[token];
      var channel := GetChannelIdentifier(channelEnv);
      if channel.Err? {
        reply, delivered := ErrorReply, None;
        return;
      }
      delivered := Some(record.channelMessageId);
      if deliverySucceeds {
        reply := SayInTry(texts, users, user.id, FileRetrieved, Some(token));
      } else {
        reply := ErrorReply;
      }
    }

    /** start: a user who has chosen a language is welcomed, anyone else gets the language menu. */
    method Start(user: User) returns (reply: Response)
      requires Valid()
      ensures user.id in users && users[user.id].language.Some? ==>
        reply == Say(texts, users, user.id, Welcome, Some(user.firstName))
      ensures !(user.id in users && users[user.id].language.Some?) ==> reply == Menu(LanguageMenu(texts))
    {
      if user.id in users && users[user.id].language.Some? {
        reply := Say(texts, users, user.id, Welcome, Some(user.firstName));
      } else {
        reply := Menu(LanguageMenu(texts));
      }
    }

    /**
     * language_callback: store the chosen language by upsert, then edit the menu
     * into the "language set" text and send the welcome (send_welcome_after_lang).
     * The replies stop at the first one whose get_text raises.
     */
    method LanguageCallback(user: User, data: string, now: int) returns (replies: seq<Response>)
      requires Valid()
      requires StartsWith(data, CallbackPrefix)
      modifies this`users
      ensures Valid()
      ensures users == Upsert(old(users), user, CallbackLanguage(data), now)
      ensures GetUserLanguage(users, user.id) == CallbackLanguage(data)
      ensures var edit := Say(texts, users, user.id, LanguageSet, None);
        replies == if edit.Unhandled? then [edit] else [edit, Say(texts, users, user.id, Welcome, Some(user.firstName))]
    {
      var language := CallbackLanguage(data);
      UpsertKeepsIndex(users, user, language, now);
      users := Upsert(users, user, language, now);
      var edit := Say(texts, users, user.id, LanguageSet, None);
      if edit.Unhandled? {
        replies := [edit];
        return;
      }
      var welcome := Say(texts, users, user.id, Welcome, Some(user.firstName));
      replies := [edit, welcome];
    }
  }

  /** No record ever sits under "000000000": every stored token starts with a non-zero digit. */
  lemma UnissuedTokenNotFound(bot: FileBot)
    requires bot.Valid()
    ensures "000000000" !in bot.files
  {
  }

  /**
   * Storing and then retrieving: a fresh bot stores a file sent by owner, and a
   * /file with the confirmed token, by any user, forwards the archived copy of
   * that very message. Neither user has chosen a language, so both replies are
   * in English.
   */
  method StoreThenRetrieve(texts: Table, channelEnv: Option<string>, owner: User, m: Message,
                           candidates: seq<nat>, now: int, requester: User)
    returns (saved: Response, retrieved: Response, copy: Option<Origin>)
    requires TableOk(texts) && GetChannelIdentifier(channelEnv).Ok? && Storable(m)
    requires |candidates| >= 1 && forall i :: 0 <= i < |candidates| ==> TokenLow <= candidates[i] <= TokenHigh
    ensures saved == Localized(FileSaved, texts[DefaultLanguage][FileSaved], Some(DecimalString(candidates[0])))
    ensures retrieved == Localized(FileRetrieved, texts[DefaultLanguage][FileRetrieved], Some(DecimalString(candidates[0])))
    ensures copy == Some(Origin(m.chatId, m.messageId))
  {
    var bot := new FileBot(texts, channelEnv);
    FirstDrawFree(bot.files, candidates);
    saved := bot.HandleFile(owner, m, true, candidates, now);
    var token := DecimalString(candidates[0]);
    EnglishByDefault(texts, bot.users, owner.id, FileSaved);
    EnglishByDefault(texts, bot.users, requester.id, FileRetrieved);
    var delivered;
    retrieved, delivered := bot.GetFile(requester, [token], true);
    copy := Some(bot.archive[delivered.value]);
  }

  /**
   * handle_file as written: the record is inserted at bot.py:273 before the
   * confirmation is built at bot.py:287, and building it raises (bot.py:114). The
   * except clause answers with the error reply, so the file is stored under a
   * token the user is never told. The insert does not depend on the reply, so the
   * stored collection is the one HandleFile leaves.
   */
  method StoreAsWritten(texts: Table, channelEnv: Option<string>, owner: User, m: Message,
                        candidates: seq<nat>, now: int)
    returns (files: Files, reply: Response)
    requires TableOk(texts) && GetChannelIdentifier(channelEnv).Ok? && Storable(m)
    requires |candidates| >= 1 && forall i :: 0 <= i < |candidates| ==> TokenLow <= candidates[i] <= TokenHigh
    ensures var token := DecimalString(candidates[0]);
      token in files && files[token].fileId == Classify(m).value.fileId && files[token].userId == owner.id
    ensures reply == ErrorReply
    ensures reply != SayInTry(texts, map[], owner.id, FileSaved, Some(DecimalString(candidates[0])))
  {
    var bot := new FileBot(texts, channelEnv);
    FirstDrawFree(bot.files, candidates);
    var intended := bot.HandleFile(owner, m, true, candidates, now);
    var token := DecimalString(candidates[0]);
    files := bot.files;
    reply := SayInTryAsWritten(texts, bot.users, owner.id, FileSaved, Some(token));
  }
}
