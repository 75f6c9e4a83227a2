/** `extractResume`: a stored file is read, sent to the model in a metered call of
    its own, and the answer saved; what was paid for stays recorded however it ends. */
module ResumeExtraction {
  import opened Wrappers
  import opened Budget
  import opened Metering
  import opened MeteringProperties
  import BlobStorage
  import CallOutcomes
  import Durability
  import LlmService
  import PromptRender
  import ReadById
  import RowSecurity
  import ResumeContent
  import Schema
  import SingleInsert
  import Tenancy
  import Transactions
  import UsageLog
  import UserContext

  const RESUME_LABEL := "resume"
  const MODEL := "claude-haiku-4-5"
  const MAX_TOKENS := 8192

  datatype ExtractionError =
    | NoSuchResume
    | BlobMissing
    | ReadFailed
    | NoText
    | LlmFailed(outcome: Outcome)
    | NothingExtracted
    | NotSaved

  /** What the surroundings contribute: the template's text, the file's text if any
      can be read, whether an answer says anything, and what surrounds the two
      transactions and the call. */
  datatype Surroundings = Surroundings(
    instructions: string,
    readText: ResumeContent.StoredFile -> Option<string>,
    hasSubstance: string -> bool,
    reading: UserContext.Environment,
    llm: LlmService.Environment,
    saving: UserContext.Environment)

  /** No other transaction of the user about in any of the request's own. */
  ghost predicate Quiet(around: Surroundings) {
    around.reading.alone && LlmService.Quiet(around.llm) && around.saving.alone
  }

  function RequestFor(userId: string, text: string, instructions: string): Request {
    Request(userId, None, None, MODEL, PromptRender.RenderSystem(instructions),
      PromptRender.RenderUserMessage([PromptRender.Block(RESUME_LABEL, text)]), MAX_TOKENS, true)
  }

  /** What is sent: a request of the user's own, no conversation's, whose message is
      the file's text as one data block and whose answer has to fit the schema. */
  predicate AsksAbout(r: Request, userId: string, text: string) {
    && r.user == userId && r.conversation == None && r.maxTurns == None && r.structured
    && r.model == "claude-haiku-4-5" && r.maxTokens == 8192
    && PromptRender.Split(r.userMessage) == Some([PromptRender.Block("resume", PromptRender.EscapeDelimiters(text))])
  }

  lemma RequestAsksAbout(userId: string, text: string, instructions: string)
    ensures AsksAbout(RequestFor(userId, text, instructions), userId, text)
  {
    var blocks := [PromptRender.Block("resume", text)];
    ResumeHoldsNoSeparator();
    PromptRender.RenderThenSplit(blocks);
    assert PromptRender.EscapeAll(blocks) == [PromptRender.Block("resume", PromptRender.EscapeDelimiters(text))];
  }

  lemma ResumeHoldsNoSeparator()
    ensures !PromptRender.HoldsSeparator("resume")
  {
    assert '"' !in "resume";
  }

  /** The system prompts of the attempts: the first is the instructions and the
      notice about data blocks, whatever the text; every one begins with the
      instructions. */
  predicate Instructed(sent: seq<Exchange>, instructions: string) {
    && (sent != [] ==> sent[0].system == instructions + "\n\n" + PromptRender.DATA_NOTICE)
    && forall i :: 0 <= i < |sent| ==> instructions <= sent[i].system
  }

  lemma HistoryIsInstructed(w: Setting, call: nat, r: Request, sent: seq<Exchange>, instructions: string)
    requires CallOutcomes.History(w, call, r, sent) && r.baseSystem == PromptRender.RenderSystem(instructions)
    ensures Instructed(sent, instructions)
  {
    forall i | 0 <= i < |sent| ensures instructions <= sent[i].system && (i == 0 ==> sent[i].system == r.baseSystem) {
      PromptBegins(w, call, r, sent[..i], sent[i].system);
      BeginsWith(instructions, "\n\n", PromptRender.DATA_NOTICE, sent[i].system);
    }
  }

  lemma PromptBegins(w: Setting, call: nat, r: Request, before: seq<Exchange>, system: string)
    requires CallOutcomes.PromptedBy(w, call, r, before, system)
    ensures r.baseSystem <= system && (before == [] ==> system == r.baseSystem)
  {
  }

  lemma BeginsWith(a: string, b: string, c: string, t: string)
    requires a + b + c <= t
    ensures a <= t
  {
    assert t[..|a|] == (a + b + c)[..|a|] == a;
  }

  /** The call ended with this data, valid by the schema. */
  predicate EndedWith(s: State, call: nat, data: string) {
    && call in s.flights && s.flights[call].phase.Ended? && s.flights[call].phase.outcome.Done?
    && s.flights[call].phase.outcome.data == Some(data)
  }

  /** Each way the request can end once the model was asked has its own reason. */
  ghost predicate AnswerDeserved(s: State, call: nat, around: Surroundings, r: Result<string, ExtractionError>) {
    match r
    case Ok(data) => EndedWith(s, call, data) && around.hasSubstance(data)
    case Err(LlmFailed(outcome)) => call in s.flights && s.flights[call].phase == Ended(outcome) && !outcome.Done?
    case Err(NothingExtracted) => exists data :: EndedWith(s, call, data) && !around.hasSubstance(data)
    case Err(NotSaved) => exists data :: EndedWith(s, call, data) && around.hasSubstance(data)
    case Err(_) => false
  }

  /** What reading comes to, with no other transaction of the user about: each error
      has its own reason, and a text is that of the stored file. */
  ghost predicate ReadDeserved(stored: Result<ResumeContent.StoredFile, ResumeContent.ContentError>,
                               around: Surroundings, r: Result<string, ExtractionError>) {
    match r
    case Ok(text) => stored.Ok? && around.readText(stored.value) == Some(text)
    case Err(NoSuchResume) => stored == Err(ResumeContent.NoSuchResume)
    case Err(BlobMissing) => stored == Err(ResumeContent.BlobMissing)
    case Err(NoText) => stored.Ok? && around.readText(stored.value) == None
    case Err(ReadFailed) => !UserContext.Faultless(around.reading)
    case Err(_) => false
  }

  /** The request is about the text read from the stored file. */
  predicate SentOwnText(request: Request, stored: Result<ResumeContent.StoredFile, ResumeContent.ContentError>,
                        around: Surroundings, userId: string) {
    && stored.Ok? && around.readText(stored.value).Some?
    && AsksAbout(request, userId, around.readText(stored.value).value)
  }

  lemma TextWasRead(request: Request, stored: Result<ResumeContent.StoredFile, ResumeContent.ContentError>,
                    around: Surroundings, userId: string, text: string)
    requires ReadDeserved(stored, around, Ok(text)) && AsksAbout(request, userId, text)
    ensures SentOwnText(request, stored, around, userId)
  {
  }

  /** A row of resume_extractions. */
  function ExtractionRow(userId: string, resumeId: string, structured: string): Schema.Row {
    Schema.Row(userId, map[Schema.Users := userId, Schema.Resumes := resumeId],
      map["structured_json" := Schema.Text(structured), "model_used" := Schema.Text(MODEL)])
  }

  /** The data is what the schema made of the last reply paid for. */
  predicate FromLastReply(w: Setting, s: State, call: nat, data: string) {
    var sent := CallOutcomes.ExchangesOf(s.exchanges, call);
    sent != [] && CallOutcomes.Judgement(w, call, sent[|sent| - 1]) == Verdict.Valid(data)
  }

  lemma DoneIsFromLastReply(w: Setting, s: State, call: nat, request: Request, outcome: Outcome)
    requires request.structured && outcome.Done?
    requires CallOutcomes.Over(w, call, request, CallOutcomes.ExchangesOf(s.exchanges, call), outcome)
    ensures outcome.data.Some? && FromLastReply(w, s, call, outcome.data.value)
  {
  }

  /** The money of a call, whatever became of it: charged is logged, gone with an
      erased account, or lost. */
  predicate Conserved(s: State, call: nat) {
    && Charged(s.exchanges, call) == CallCost(s.log, call) + CallCost(s.gone, call) + CallCost(s.lost, call)
    && (call in s.flights && s.flights[call].request.user !in s.erased ==> CallCost(s.gone, call) == 0.0)
  }

  /** Rows of users not erased stay, and so do the reports of lost ones. */
  predicate Extended(before: State, after: State) {
    Live(before.log, after.erased) <= after.log && before.lost <= after.lost
  }

  /** A call that has not begun has cost nothing and sent nothing. */
  lemma NothingBegun(w: Setting, s: State, call: nat, instructions: string)
    requires Sound(w, s) && call !in s.flights && Charged(s.exchanges, call) == 0.0
    requires CallOutcomes.ExchangesOf(s.exchanges, call) == []
    ensures Extended(s, s) && Conserved(s, call)
    ensures Instructed(CallOutcomes.ExchangesOf(s.exchanges, call), instructions)
  {
    LiveOfLive(s.log, s.erased);
    UsageLog.NewCallHasNoRows(s, call);
  }

  /** The data is in the database, under the last of the keys, as an extraction of
      the user's resume with the model that made it. */
  predicate Saved(db: Schema.Db, keys: seq<Schema.Key>, userId: string, resumeId: string, data: string) {
    && keys != [] && keys[|keys| - 1].table == Schema.ResumeExtractions && keys[|keys| - 1] in db
    && var row := db[keys[|keys| - 1]];
    && row.owner == userId && row.parents == map[Schema.Users := userId, Schema.Resumes := resumeId]
    && Schema.TextIn(row, "structured_json") == data && Schema.TextIn(row, "model_used") == "claude-haiku-4-5"
  }

  /** The usage rows, and the extraction on success. */
  function WrittenRows(userId: string, resumeId: string, usage: seq<Schema.Row>, r: Result<string, ExtractionError>)
    : seq<Schema.Row>
  {
    if r.Ok? then usage + [ExtractionRow(userId, resumeId, r.value)] else usage
  }

  /** Why a save may not go through: the database fails, the user or the resume is
      not there, or the id of the new row has been used by another. */
  ghost predicate SaveTroubled(around: Surroundings, rows: Schema.Db, userId: string, resumeId: string,
                               used: set<Schema.Key>) {
    || !UserContext.Faultless(around.saving)
    || Schema.Key(Schema.Users, userId) !in rows || Schema.Key(Schema.Resumes, resumeId) !in rows
    || Schema.Key(Schema.ResumeExtractions, around.saving.newId(0)) in used
  }

  lemma TroubleOfSave(around: Surroundings, rows: Schema.Db, userId: string, resumeId: string, data: string,
                      used: set<Schema.Key>)
    requires around.saving.alone
    requires SingleInsert.Troubled(around.saving, rows, ExtractionRow(userId, resumeId, data),
               Schema.Key(Schema.ResumeExtractions, around.saving.newId(0)), used)
    ensures SaveTroubled(around, rows, userId, resumeId, used)
  {
  }

  class ResumeExtraction {
    const llm: LlmService.LlmService
    const reader: ResumeContent.ResumeReader

    ghost predicate Valid()
      reads this, llm, llm.pool
    {
      llm.Valid() && llm.pool == reader.pool
    }

    constructor (llm: LlmService.LlmService, reader: ResumeContent.ResumeReader)
      requires llm.Valid() && llm.pool == reader.pool
      ensures Valid() && this.llm == llm && this.reader == reader
    {
      this.llm := llm;
      this.reader := reader;
    }

    /** completeStructured: the validated data, or what the call ended with. */
    method Complete(call: nat, request: Request, env: LlmService.Environment)
      returns (r: Result<string, Outcome>, ghost keys: seq<Schema.Key>, ghost rows: seq<Schema.Row>)
      requires llm.Valid() && llm.Fresh(call) && request.structured && request.user != ""
      modifies llm, llm.pool
      ensures llm.Valid() && Conserved(llm.world, call) && Extended(old(llm.world), llm.world)
      ensures r.Ok? ==> FromLastReply(llm.setting, llm.world, call, r.value)
      ensures old(llm.pool.history) <= llm.pool.history
      ensures SingleInsert.Accounted(llm.pool, LlmService.Quiet(env), request.user,
                old(RowSecurity.Part(llm.pool.state.db, request.user)), keys, rows)
      ensures call in llm.world.flights && LlmService.LogHolds(llm.world, call, rows)
      ensures llm.world.flights[call].request == request
      ensures CallOutcomes.History(llm.setting, call, request, CallOutcomes.ExchangesOf(llm.world.exchanges, call))
      ensures match r
              case Ok(data) => EndedWith(llm.world, call, data)
              case Err(outcome) => llm.world.flights[call].phase == Ended(outcome) && !outcome.Done?
    {
      var outcome;
      ghost var trace;
      outcome, trace, keys, rows := llm.Run(call, request, env);
      if outcome.Done? {
        DoneIsFromLastReply(llm.setting, llm.world, call, request, outcome);
        r := Ok(outcome.data.value);
      } else {
        r := Err(outcome);
      }
    }

    /** The extraction in a transaction of its own; committed or rolled back, the
        usage rows accounted for before still are. */
    method Save(userId: string, resumeId: string, structured: string, env: UserContext.Environment, ghost alone: bool,
                ghost base: Schema.Db, ghost keys: seq<Schema.Key>, ghost rows: seq<Schema.Row>)
      returns (saved: bool, ghost keys': seq<Schema.Key>, ghost rows': seq<Schema.Row>)
      requires llm.pool.Valid() && userId != "" && (alone ==> env.alone)
      requires SingleInsert.Accounted(llm.pool, alone, userId, base, keys, rows)
      requires Tenancy.Seen(llm.pool.state, userId, Schema.Key(Schema.Resumes, resumeId))
      modifies llm.pool
      ensures llm.pool.Valid() && old(llm.pool.history) <= llm.pool.history
      ensures SingleInsert.Accounted(llm.pool, alone, userId, base, keys', rows')
      ensures rows' == if saved then rows + [ExtractionRow(userId, resumeId, structured)] else rows
      ensures saved ==> Saved(llm.pool.state.db, keys', userId, resumeId, structured)
      ensures !saved && alone ==>
                SingleInsert.Troubled(env, base, ExtractionRow(userId, resumeId, structured),
                  Schema.Key(Schema.ResumeExtractions, env.newId(0)), llm.pool.state.born.Keys)
    {
      if alone {
        Durability.WithRowsKeeps(base, keys, rows);
      }
      ghost var known := {Schema.Key(Schema.Resumes, resumeId)};
      saved, keys', rows' := SingleInsert.InsertAccounted(llm.pool, userId, Schema.ResumeExtractions,
        ExtractionRow(userId, resumeId, structured), known, env, alone, base, keys, rows);
    }

    /** On every exit, a save that is rolled back included, what the provider charged
        for the call is the cost logged, lost or gone with an erased account; each
        usage row the call logged, and the extraction on success, is in the database
        unless another transaction that wrote it has committed, and these are all
        that has changed of the user's rows when no other transaction of the user is
        about. Nothing is spent unless the user's own file was read, and only data
        that passed the schema and says something is saved. What the model is sent is
        the template's instructions and, as one data block, the text of the user's own
        stored file; and every error has its own reason, so that without one of these
        reasons the data is saved. */
    method ExtractResume(userId: string, resumeId: string, call: nat, around: Surroundings)
      returns (r: Result<string, ExtractionError>, ghost keys: seq<Schema.Key>, ghost usage: seq<Schema.Row>)
      requires Valid() && llm.Fresh(call) && userId != ""
      modifies llm, llm.pool
      ensures Valid() && Conserved(llm.world, call) && Extended(old(llm.world), llm.world)
      ensures old(llm.pool.history) <= llm.pool.history
      ensures SingleInsert.Accounted(llm.pool, Quiet(around), userId, old(RowSecurity.Part(llm.pool.state.db, userId)),
                keys, WrittenRows(userId, resumeId, usage, r))
      ensures if call in llm.world.flights then LlmService.LogHolds(llm.world, call, usage) else usage == []
      ensures r.Err? && (r.error.NoSuchResume? || r.error.BlobMissing? || r.error.ReadFailed? || r.error.NoText?) ==>
                llm.world == old(llm.world)
      ensures
        var resume, born := Schema.Key(Schema.Resumes, resumeId), old(llm.pool.state.born);
        resume in born && born[resume] != userId ==> r == Err(NoSuchResume) || r == Err(ReadFailed)
      ensures r.Ok? ==>
                && around.hasSubstance(r.value) && FromLastReply(llm.setting, llm.world, call, r.value)
                && Saved(llm.pool.state.db, keys, userId, resumeId, r.value)
      ensures
        var own := ReadById.Own(old(llm.pool.state).db, userId, Schema.Key(Schema.Resumes, resumeId));
        var stored := ResumeContent.FileOf(own, reader.store.blobs);
        around.reading.alone ==>
          if call in llm.world.flights
          then SentOwnText(llm.world.flights[call].request, stored, around, userId)
          else ReadDeserved(stored, around, r)
      ensures Instructed(CallOutcomes.ExchangesOf(llm.world.exchanges, call), around.instructions)
      ensures if call in llm.world.flights then AnswerDeserved(llm.world, call, around, r)
              else r.Err? && llm.world == old(llm.world)
      ensures r == Err(NotSaved) && Quiet(around) ==>
                SaveTroubled(around, old(RowSecurity.Part(llm.pool.state.db, userId)), userId, resumeId,
                  llm.pool.state.born.Keys)
    {
      ghost var own := ReadById.Own(llm.pool.state.db, userId, Schema.Key(Schema.Resumes, resumeId));
      ghost var stored := ResumeContent.FileOf(own, reader.store.blobs);
      r, keys, usage := Extract(userId, resumeId, call, around, stored, RowSecurity.Part(llm.pool.state.db, userId));
    }

    /** The request, told what is stored and what rows there are at its beginning. */
    method Extract(userId: string, resumeId: string, call: nat, around: Surroundings,
                   ghost stored: Result<ResumeContent.StoredFile, ResumeContent.ContentError>, ghost base: Schema.Db)
      returns (r: Result<string, ExtractionError>, ghost keys: seq<Schema.Key>, ghost usage: seq<Schema.Row>)
      requires Valid() && llm.Fresh(call) && userId != ""
      requires
        var own := ReadById.Own(llm.pool.state.db, userId, Schema.Key(Schema.Resumes, resumeId));
        stored == ResumeContent.FileOf(own, reader.store.blobs) && base == RowSecurity.Part(llm.pool.state.db, userId)
      modifies llm, llm.pool
      ensures Valid() && Conserved(llm.world, call) && Extended(old(llm.world), llm.world)
      ensures old(llm.pool.history) <= llm.pool.history
      ensures SingleInsert.Accounted(llm.pool, Quiet(around), userId, base, keys,
                WrittenRows(userId, resumeId, usage, r))
      ensures if call in llm.world.flights then LlmService.LogHolds(llm.world, call, usage) else usage == []
      ensures r.Err? && (r.error.NoSuchResume? || r.error.BlobMissing? || r.error.ReadFailed? || r.error.NoText?) ==>
                llm.world == old(llm.world)
      ensures
        var resume, born := Schema.Key(Schema.Resumes, resumeId), old(llm.pool.state.born);
        resume in born && born[resume] != userId ==> r == Err(NoSuchResume) || r == Err(ReadFailed)
      ensures r.Ok? ==>
                && around.hasSubstance(r.value) && FromLastReply(llm.setting, llm.world, call, r.value)
                && Saved(llm.pool.state.db, keys, userId, resumeId, r.value)
      ensures
        around.reading.alone ==>
          if call in llm.world.flights
          then SentOwnText(llm.world.flights[call].request, stored, around, userId)
          else ReadDeserved(stored, around, r)
      ensures Instructed(CallOutcomes.ExchangesOf(llm.world.exchanges, call), around.instructions)
      ensures if call in llm.world.flights then AnswerDeserved(llm.world, call, around, r)
              else r.Err? && llm.world == old(llm.world)
      ensures r == Err(NotSaved) && Quiet(around) ==>
                SaveTroubled(around, base, userId, resumeId, llm.pool.state.born.Keys)
    {
      keys, usage := [], [];
      NothingBegun(llm.setting, llm.world, call, around.instructions);
      var text := ReadText(userId, resumeId, around, stored);
      SingleInsert.NothingYet(llm.pool, Quiet(around), userId, base);
      if text.Err? {
        return text, keys, usage;
      }

      ghost var read := llm.pool.history;
      r, keys, usage := AskAndSave(userId, resumeId, text.value, call, around, stored, base);
      Transactions.GoesOn(old(llm.pool.history), read, llm.pool.history);
    }

    /** The text of the user's own file. */
    method ReadText(userId: string, resumeId: string, around: Surroundings,
                    ghost stored: Result<ResumeContent.StoredFile, ResumeContent.ContentError>)
      returns (r: Result<string, ExtractionError>)
      requires llm.pool.Valid() && llm.pool == reader.pool && userId != ""
      requires
        var own := ReadById.Own(llm.pool.state.db, userId, Schema.Key(Schema.Resumes, resumeId));
        stored == ResumeContent.FileOf(own, reader.store.blobs)
      modifies llm.pool
      ensures llm.pool.Valid() && old(llm.pool.history) <= llm.pool.history
      ensures r.Ok? ==> Tenancy.Seen(llm.pool.state, userId, Schema.Key(Schema.Resumes, resumeId))
      ensures r.Err? ==> r.error.NoSuchResume? || r.error.BlobMissing? || r.error.ReadFailed? || r.error.NoText?
      ensures
        var resume, born := Schema.Key(Schema.Resumes, resumeId), old(llm.pool.state.born);
        resume in born && born[resume] != userId ==> r == Err(NoSuchResume) || r == Err(ReadFailed)
      ensures around.reading.alone ==>
                RowSecurity.Part(llm.pool.state.db, userId) == old(RowSecurity.Part(llm.pool.state.db, userId))
      ensures around.reading.alone ==> ReadDeserved(stored, around, r)
    {
      var content := reader.Content(userId, resumeId, around.reading);
      r := TextIn(content, around.readText);
      if around.reading.alone {
        NeverReadFailed(ReadById.Own(old(llm.pool.state).db, userId, Schema.Key(Schema.Resumes, resumeId)),
          reader.store.blobs);
        TextDeserved(stored, content, around);
      }
    }

    /** The call to the model about the text read from what was stored, and what is made
        of its answer. */
    method AskAndSave(userId: string, resumeId: string, text: string, call: nat, around: Surroundings,
                      ghost stored: Result<ResumeContent.StoredFile, ResumeContent.ContentError>, ghost base: Schema.Db)
      returns (r: Result<string, ExtractionError>, ghost keys: seq<Schema.Key>, ghost usage: seq<Schema.Row>)
      requires Valid() && llm.Fresh(call) && userId != ""
      requires Tenancy.Seen(llm.pool.state, userId, Schema.Key(Schema.Resumes, resumeId))
      requires around.reading.alone ==> ReadDeserved(stored, around, Ok(text))
      requires SingleInsert.Accounted(llm.pool, Quiet(around), userId, base, [], [])
      modifies llm, llm.pool
      ensures Valid() && Conserved(llm.world, call) && Extended(old(llm.world), llm.world)
      ensures old(llm.pool.history) <= llm.pool.history
      ensures SingleInsert.Accounted(llm.pool, Quiet(around), userId, base, keys,
                WrittenRows(userId, resumeId, usage, r))
      ensures call in llm.world.flights && LlmService.LogHolds(llm.world, call, usage)
      ensures r.Err? ==> r.error.LlmFailed? || r.error.NothingExtracted? || r.error.NotSaved?
      ensures r.Ok? ==>
                && around.hasSubstance(r.value) && FromLastReply(llm.setting, llm.world, call, r.value)
                && Saved(llm.pool.state.db, keys, userId, resumeId, r.value)
      ensures around.reading.alone ==> SentOwnText(llm.world.flights[call].request, stored, around, userId)
      ensures Instructed(CallOutcomes.ExchangesOf(llm.world.exchanges, call), around.instructions)
      ensures AnswerDeserved(llm.world, call, around, r)
      ensures r == Err(NotSaved) && Quiet(around) ==>
                SaveTroubled(around, base, userId, resumeId, llm.pool.state.born.Keys)
    {
      ghost var read := llm.pool.history;
      var answer;
      answer, keys, usage := Ask(userId, text, call, around, stored, base);
      if answer.Err? {
        return Err(LlmFailed(answer.error)), keys, usage;
      }
      if !around.hasSubstance(answer.value) {
        return Err(NothingExtracted), keys, usage;
      }

      Transactions.SeenGoesOn(llm.pool.origin, read, llm.pool.history, userId, {Schema.Key(Schema.Resumes, resumeId)});
      var saved;
      ghost var asked, rows := llm.pool.history, [];
      saved, keys, rows := Save(userId, resumeId, answer.value, around.saving, Quiet(around), base, keys, usage);
      Transactions.GoesOn(read, asked, llm.pool.history);
      if !saved && Quiet(around) {
        TroubleOfSave(around, base, userId, resumeId, answer.value, llm.pool.state.born.Keys);
      }
      r := if saved then Ok(answer.value) else Err(NotSaved);
    }

    /** The metered call about the text. */
    method Ask(userId: string, text: string, call: nat, around: Surroundings,
               ghost stored: Result<ResumeContent.StoredFile, ResumeContent.ContentError>, ghost base: Schema.Db)
      returns (r: Result<string, Outcome>, ghost keys: seq<Schema.Key>, ghost usage: seq<Schema.Row>)
      requires Valid() && llm.Fresh(call) && userId != ""
      requires around.reading.alone ==> ReadDeserved(stored, around, Ok(text))
      requires SingleInsert.Accounted(llm.pool, Quiet(around), userId, base, [], [])
      modifies llm, llm.pool
      ensures Valid() && Conserved(llm.world, call) && Extended(old(llm.world), llm.world)
      ensures old(llm.pool.history) <= llm.pool.history
      ensures SingleInsert.Accounted(llm.pool, Quiet(around), userId, base, keys, usage)
      ensures call in llm.world.flights && LlmService.LogHolds(llm.world, call, usage)
      ensures around.reading.alone ==> SentOwnText(llm.world.flights[call].request, stored, around, userId)
      ensures Instructed(CallOutcomes.ExchangesOf(llm.world.exchanges, call), around.instructions)
      ensures r.Ok? ==> FromLastReply(llm.setting, llm.world, call, r.value)
      ensures match r
              case Ok(data) => EndedWith(llm.world, call, data)
              case Err(outcome) => llm.world.flights[call].phase == Ended(outcome) && !outcome.Done?
    {
      var request := RequestFor(userId, text, around.instructions);
      if around.reading.alone {
        RequestAsksAbout(userId, text, around.instructions);
        TextWasRead(request, stored, around, userId, text);
      }
      ghost var now := RowSecurity.Part(llm.pool.state.db, userId);
      r, keys, usage := Complete(call, request, around.llm);
      HistoryIsInstructed(llm.setting, call, request, CallOutcomes.ExchangesOf(llm.world.exchanges, call),
        around.instructions);
      SingleInsert.LessAlone(llm.pool, LlmService.Quiet(around.llm), Quiet(around), userId, now, keys, usage);
      SingleInsert.SameBase(llm.pool, Quiet(around), userId, now, base, keys, usage);
    }
  }

  /** extractText of a file, where there is one. */
  function TextIn(content: Result<ResumeContent.StoredFile, ResumeContent.ContentError>,
                  readText: ResumeContent.StoredFile -> Option<string>): Result<string, ExtractionError> {
    match content
    case Err(e) => Err(ErrorFor(e))
    case Ok(file) => if readText(file) == None then Err(NoText) else Ok(readText(file).value)
  }

  lemma TextDeserved(stored: Result<ResumeContent.StoredFile, ResumeContent.ContentError>,
                     content: Result<ResumeContent.StoredFile, ResumeContent.ContentError>, around: Surroundings)
    requires stored != Err(ResumeContent.ReadFailed)
    requires content == stored
             || (content == Err(ResumeContent.ReadFailed) && !UserContext.Faultless(around.reading))
    ensures ReadDeserved(stored, around, TextIn(content, around.readText))
  {
  }

  lemma NeverReadFailed(own: Option<Schema.Row>, blobs: BlobStorage.Blobs)
    ensures ResumeContent.FileOf(own, blobs) != Err(ResumeContent.ReadFailed)
  {
  }

  function ErrorFor(e: ResumeContent.ContentError): ExtractionError {
    match e
    case NoSuchResume => NoSuchResume
    case BlobMissing => BlobMissing
    case ReadFailed => ReadFailed
  }
}
