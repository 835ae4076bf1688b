/** go/internal/cancel/keyboard.go: the callback strings behind the cancel and queue buttons. */
module CancelButton {
  import opened Text

  datatype Data = Data(scene: string, user: int, token: string)

  function CallbackData(scene: string, user: int, token: string): string {
    "dlc:" + scene + ":" + PrintInt(user) + ":" + token
  }

  function ParseCancel(data: string): Option<Data> {
    var parts := Split(data, ':');
    if |parts| != 4 || parts[0] != "dlc" || parts[3] == "" then None
    else
      match Atoi(parts[2])
      case None => None
      case Some(user) => Some(Data(parts[1], user, parts[3]))
  }

  function QueueCallbackData(user: int): string {
    "dlq:" + PrintInt(user)
  }

  function ParseQueue(data: string): Option<int> {
    var parts := Split(data, ':');
    if |parts| != 2 || parts[0] != "dlq" then None else Atoi(parts[1])
  }

  /** The text of a button. */
  lemma ButtonText(user: int)
    ensures CallbackData("tiktok", user, "t") == "dlc:tiktok:" + PrintInt(user) + ":t"
    ensures QueueCallbackData(user) == "dlq:" + PrintInt(user)
  {
  }

  /** Whatever string arrives, an accepted one names a scene and a non-empty token without colons. */
  lemma ParsedIsClean(data: string)
    ensures ParseCancel(data).Some? ==>
              var d := ParseCancel(data).value;
              Free(d.scene, ':') && Free(d.token, ':') && d.token != "" && IsInt64(d.user)
  {
    SplitPiecesFree(data, ':');
  }

  /** The button decodes to exactly what was locked, and only for colon-free scenes and non-empty
      colon-free tokens. */
  lemma ButtonDecodesIff(scene: string, user: int, token: string)
    requires IsInt64(user)
    ensures ParseCancel(CallbackData(scene, user, token)) == Some(Data(scene, user, token))
       <==> Free(scene, ':') && Free(token, ':') && token != ""
  {
    var u := PrintInt(user);
    if Free(scene, ':') && Free(token, ':') && token != "" {
      PrintIntShape(user);
      var rest := u + ":" + token;
      assert CallbackData(scene, user, token) == "dlc" + ":" + (scene + ":" + rest);
      SplitHead("dlc", ':', scene + ":" + rest);
      SplitHead(scene, ':', rest);
      SplitHead(u, ':', token);
      SplitFree(token, ':');
      AtoiPrint(user);
    } else {
      ParsedIsClean(CallbackData(scene, user, token));
    }
  }

  lemma QueueButtonDecodes(user: int)
    requires IsInt64(user)
    ensures ParseQueue(QueueCallbackData(user)) == Some(user)
  {
    var u := PrintInt(user);
    PrintIntShape(user);
    assert QueueCallbackData(user) == "dlq" + ":" + u;
    SplitHead("dlq", ':', u);
    SplitFree(u, ':');
    AtoiPrint(user);
  }
}
