/**
 * The search command (BotPlayerSearchChatCommand): the query option goes to
 * the YouTube search, and the results come back as an embed with one
 * numbered link field per result and one numbered button per result, in
 * rows of five. Each button's custom id names the choose-track command and
 * carries the result's video id and index.
 */
module SearchCommand {
  import opened Wrappers
  import opened JavaStrings
  import opened Components
  import opened ChooseTrack
  import opened PlayerService

  const SEARCH_QUERY_PARAM: string := "query"
  const BASE_YT_VIDEO_URL: string := "https://www.youtube.com/watch?v="

  /** A search hit: the video id and the snippet title. */
  datatype SearchResult = SearchResult(videoId: string, title: string)

  /**
   * How the search ends: a result list, a null list, an IOException, or a
   * NoApiKeyException with its message.
   */
  datatype SearchOutcome = Results(list: seq<SearchResult>) | NullList | SearchIOError | NoApiKey(message: string)

  /** An embed field: its name, its text and whether it is inline. */
  datatype Field = Field(name: string, value: string, inline: bool)

  /** The reply the command edits in: an embed with components, or plain text. */
  datatype SearchReply = Embed(title: string, fields: seq<Field>, rows: seq<seq<Button>>) | Plain(text: string)

  /** createButton: a success-styled button numbered from one. */
  function CreateButton(trackId: string, index: nat): (b: Button)
  {
    Button(Success,
           COMMAND_NAME + ID_PARAMS_SEPARATOR + trackId + ID_PARAMS_SEPARATOR + NatToString(index),
           NatToString(index + 1))
  }

  /** createField: `"%d - [%s](%s%s)"` with the number, the title, the base URL and the video id. */
  function CreateField(result: SearchResult, index: nat): (f: Field)
  {
    Field("", NatToString(index + 1) + " - [" + result.title + "](" + BASE_YT_VIDEO_URL + result.videoId + ")", false)
  }

  /** getFieldList: one field per result, in order, with 0-based indices. */
  function FieldList(results: seq<SearchResult>): (fields: seq<Field>)
    ensures |fields| == |results|
    ensures forall i :: 0 <= i < |results| ==> fields[i] == CreateField(results[i], i)
  {
    seq(|results|, i requires 0 <= i < |results| => CreateField(results[i], i))
  }

  /** createButtons: one button per result's video id, in order, in rows of at most five. */
  function CreateButtons(results: seq<SearchResult>): (rows: seq<seq<Button>>)
    ensures |Flatten(rows)| == |results|
    ensures forall i :: 0 <= i < |results| ==> Flatten(rows)[i] == CreateButton(results[i].videoId, i)
    ensures forall i :: 0 <= i < |rows| ==> 1 <= |rows[i]| <= ROW_SIZE
    ensures forall i :: 0 <= i < |rows| - 1 ==> |rows[i]| == ROW_SIZE
  {
    ActionRows(seq(|results|, i requires 0 <= i < |results| => CreateButton(results[i].videoId, i)))
  }

  /**
   * execute: the query option (empty when missing) is searched; a result
   * list gives the "tracks_found_caption" embed with the fields and the
   * buttons; a null list gives "no_search_result", an IOException
   * "search_error", and a missing API key its own message.
   */
  function Execute(options: map<string, Option<string>>, search: string -> SearchOutcome,
                   localize: string -> string): (reply: SearchReply)
    ensures var outcome := search(GetParamValue(options, SEARCH_QUERY_PARAM));
      && (reply.Embed? <==> outcome.Results?)
      && (outcome.Results? ==>
            && reply.title == localize("tracks_found_caption")
            && |reply.fields| == |outcome.list| == |Flatten(reply.rows)|
            && (forall i :: 0 <= i < |outcome.list| ==>
                  reply.fields[i] == CreateField(outcome.list[i], i)
                  && Flatten(reply.rows)[i] == CreateButton(outcome.list[i].videoId, i)))
      && (outcome.NullList? ==> reply == Plain(localize("no_search_result")))
      && (outcome.SearchIOError? ==> reply == Plain(localize("search_error")))
      && (outcome.NoApiKey? ==> reply == Plain(outcome.message))
  {
    match search(GetParamValue(options, SEARCH_QUERY_PARAM))
    case Results(list) => Embed(localize("tracks_found_caption"), FieldList(list), CreateButtons(list))
    case NullList => Plain(localize("no_search_result"))
    case SearchIOError => Plain(localize("search_error"))
    case NoApiKey(message) => Plain(message)
  }

  // ---- the button id codec ------------------------------------------------

  lemma DigitsHaveNoPercent(n: nat)
    ensures '%' !in NatToString(n)
  {
  }

  /**
   * A button id splits into the command name, the video id and the index,
   * so the choose-track command decodes the video id back from it.
   */
  lemma ButtonIdRoundTrip(trackId: string, index: nat)
    requires '%' !in trackId
    ensures Split(CreateButton(trackId, index).customId, ID_PARAMS_SEPARATOR)
         == [COMMAND_NAME, trackId, NatToString(index)]
    ensures TrackIdOf(CreateButton(trackId, index).customId) == Some(trackId)
  {
    var digits := NatToString(index);
    assert '%' !in COMMAND_NAME;
    SegmentsAfterTwoSeparators(COMMAND_NAME, trackId, digits);
    DigitsHaveNoPercent(index);
    PiecesWithoutSep(digits, ID_PARAMS_SEPARATOR);
    var ps := [COMMAND_NAME, trackId] + [digits];
    assert Pieces(CreateButton(trackId, index).customId, ID_PARAMS_SEPARATOR) == ps;
    assert DropTrailingEmpty(ps) == ps;
  }

  /** The index segment reads back as the result's index. */
  lemma ButtonIndexRoundTrip(trackId: string, index: nat)
    requires '%' !in trackId
    ensures var segments := Split(CreateButton(trackId, index).customId, ID_PARAMS_SEPARATOR);
      |segments| == 3 && DigitsValue(segments[2]) == index
  {
    ButtonIdRoundTrip(trackId, index);
    NatToStringValue(index);
  }

  /**
   * Each result's field starts with the caption of its button, and the
   * field links to the video the button chooses.
   */
  lemma FieldMatchesButton(result: SearchResult, index: nat)
    ensures var f, b := CreateField(result, index), CreateButton(result.videoId, index);
      && f.value[..|b.caption|] == b.caption
      && DigitsValue(b.caption) == index + 1
      && f.value[|f.value| - |BASE_YT_VIDEO_URL + result.videoId + ")"|..] == BASE_YT_VIDEO_URL + result.videoId + ")"
  {
    var n := NatToString(index + 1);
    var link := BASE_YT_VIDEO_URL + result.videoId + ")";
    var f := CreateField(result, index);
    assert f.value == n + (" - [" + result.title + "](") + link;
    NatToStringValue(index + 1);
  }

  /**
   * In a found-results reply, the i-th button chooses the i-th result's
   * video and is numbered like the i-th field.
   */
  lemma ButtonsChooseTheirResults(options: map<string, Option<string>>, search: string -> SearchOutcome,
                                  localize: string -> string, i: nat)
    requires var outcome := search(GetParamValue(options, SEARCH_QUERY_PARAM));
      outcome.Results? && i < |outcome.list| && '%' !in outcome.list[i].videoId
    ensures var outcome := search(GetParamValue(options, SEARCH_QUERY_PARAM));
      var reply := Execute(options, search, localize);
      var b := Flatten(reply.rows)[i];
      && TrackIdOf(b.customId) == Some(outcome.list[i].videoId)
      && reply.fields[i].value[..|b.caption|] == b.caption
      && DigitsValue(b.caption) == i + 1
  {
    var outcome := search(GetParamValue(options, SEARCH_QUERY_PARAM));
    ButtonIdRoundTrip(outcome.list[i].videoId, i);
    FieldMatchesButton(outcome.list[i], i);
  }
}
