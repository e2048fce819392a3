/**
  The three catch blocks (form submit, delete, list fetch) and what they tell
  the user. They share one priority chain: offline first, then a failed
  connection, then a server status, and otherwise the error's own message.
*/
module Failures {
  import opened Text

  /** A thrown JavaScript error: its `name` and its `message`. */
  datatype JsError = JsError(name: string, message: string)

  /** The category a catch block assigns, in its order of priority. */
  datatype Category = Connection | Network | Server | Unclassified

  /**
    `!navigator.onLine`, then `error.name === 'TypeError' || message.includes('fetch')`,
    then `message.includes('HTTP error')` (the delete handler also accepts
    `message.includes('status')`, which `statusMeansServer` turns on).
  */
  function Classify(online: bool, e: JsError, statusMeansServer: bool): (c: Category)
    ensures c == Connection <==> !online
    ensures online ==> (c == Network <==> (e.name == "TypeError" || Contains(e.message, "fetch")))
    ensures online && c != Network ==>
      (c == Server <==> (Contains(e.message, "HTTP error") || (statusMeansServer && Contains(e.message, "status"))))
    ensures online && !(e.name == "TypeError" || Contains(e.message, "fetch"))
      && !(Contains(e.message, "HTTP error") || (statusMeansServer && Contains(e.message, "status")))
      ==> c == Unclassified
  {
    if !online then Connection
    else if e.name == "TypeError" || Contains(e.message, "fetch") then Network
    else if Contains(e.message, "HTTP error") || (statusMeansServer && Contains(e.message, "status")) then Server
    else Unclassified
  }

  /** Accepting `status` as a server marker only ever turns an unclassified error into a server error. */
  lemma DeleteClassifiesAtLeastAsServer(online: bool, e: JsError)
    ensures Classify(online, e, false) != Unclassified ==> Classify(online, e, true) == Classify(online, e, false)
    ensures Classify(online, e, false) == Unclassified ==> Classify(online, e, true) in {Unclassified, Server}
  {
  }

  /** The title an alert and a toast carry for a category. */
  function Title(c: Category, unclassified: string): string {
    match c
    case Connection => "Connection Error"
    case Network => "Network Error"
    case Server => "Server Error"
    case Unclassified => unclassified
  }

  /** An alert or toast: its title and the message explaining it. */
  datatype Notice = Notice(title: string, message: string)

  const OfflineMessage := "No internet connection. Please check your network and try again."

  const SubmitNetworkMessage := "Unable to connect to the server. Please try again later."

  /** The report of a failed create or update. */
  function SubmitFailure(online: bool, e: JsError): (n: Notice)
    ensures var c := Classify(online, e, false);
      && n.title == Title(c, "Error")
      && (c == Connection ==> n.message == OfflineMessage)
      && (c == Network ==> n.message == SubmitNetworkMessage)
      && (c == Server ==> n.message == "Server error (" + e.message + "). Please try again or contact support.")
      && (c == Unclassified ==> n.message == e.message)
  {
    var c := Classify(online, e, false);
    Notice(
      Title(c, "Error"),
      match c
      case Connection => OfflineMessage
      case Network => SubmitNetworkMessage
      case Server => "Server error (" + e.message + "). Please try again or contact support."
      case Unclassified => e.message)
  }

  const DeleteNetworkMessage := "Unable to connect to the server. The product may still exist."
  const DeleteServerMessage := "Server error while deleting product. Please try again or contact support."

  /** The report of a failed delete. */
  function DeleteFailure(online: bool, e: JsError): (n: Notice)
    ensures var c := Classify(online, e, true);
      && n.title == Title(c, "Delete Error")
      && (c == Connection ==> n.message == OfflineMessage)
      && (c == Network ==> n.message == DeleteNetworkMessage)
      && (c == Server ==> n.message == DeleteServerMessage)
      && (c == Unclassified ==> n.message == e.message)
  {
    var c := Classify(online, e, true);
    Notice(
      Title(c, "Delete Error"),
      match c
      case Connection => OfflineMessage
      case Network => DeleteNetworkMessage
      case Server => DeleteServerMessage
      case Unclassified => e.message)
  }

  /**
    The panel a failed list fetch puts in the card grid: the explanation,
    the raw error message under it, and whether the "Alternative Method"
    retry button is offered (only while online).
  */
  datatype LoadFailure = LoadFailure(message: string, detail: string, offersAlternative: bool)

  const LoadOfflineMessage := "No internet connection. Please check your network connection."
  const LoadNetworkMessage := "Unable to connect to the product database. Please try again later."
  const LoadUnknownMessage := "Unknown error occurred while loading products."

  /** The panel of a failed list fetch; this catch block has no raw-message branch. */
  function LoadFailureFor(online: bool, e: JsError): (f: LoadFailure)
    ensures f.detail == e.message && f.offersAlternative == online
    ensures var c := Classify(online, e, false);
      && (c == Connection ==> f.message == LoadOfflineMessage)
      && (c == Network ==> f.message == LoadNetworkMessage)
      && (c == Server ==> f.message == "Server error while loading products (" + e.message + ").")
      && (c == Unclassified ==> f.message == LoadUnknownMessage)
  {
    var c := Classify(online, e, false);
    LoadFailure(
      match c
      case Connection => LoadOfflineMessage
      case Network => LoadNetworkMessage
      case Server => "Server error while loading products (" + e.message + ")."
      case Unclassified => LoadUnknownMessage,
      e.message,
      online)
  }

  /** The error thrown for a response that is not `ok`; the status reads back from the end of its message. */
  function HttpError(status: nat): (e: JsError)
    ensures e.name == "Error" && |e.message| > 20 && e.message[..20] == "HTTP error! status: "
    ensures forall k :: 20 <= k < |e.message| ==> IsDigit(e.message[k])
    ensures ParseDecimal(e.message[20..]) == status
  {
    var prefix, digits := "HTTP error! status: ", DecimalString(status);
    ParseDecimalString(status);
    assert (prefix + digits)[20..] == digits && (prefix + digits)[..20] == prefix;
    JsError("Error", prefix + digits)
  }

  /** The error the delete handler throws for any status other than 200; the status reads back from its end. */
  function DeleteStatusError(status: nat): (e: JsError)
    ensures e.name == "Error" && |e.message| > 27 && e.message[..27] == "Delete failed with status: "
    ensures forall k :: 27 <= k < |e.message| ==> IsDigit(e.message[k])
    ensures ParseDecimal(e.message[27..]) == status
  {
    var prefix, digits := "Delete failed with status: ", DecimalString(status);
    ParseDecimalString(status);
    assert (prefix + digits)[27..] == digits && (prefix + digits)[..27] == prefix;
    JsError("Error", prefix + digits)
  }

  /** A decimal numeral holds no letter, so appending one after text free of "fe" never forms "fetch". */
  lemma StatusMessageAvoidsFetch(prefix: string, status: nat)
    requires NoPair(prefix, 'f', 'e') && prefix != [] && prefix[|prefix| - 1] != 'f'
    ensures !Contains(prefix + DecimalString(status), "fetch")
  {
    var digits := DecimalString(status);
    assert 'f' !in digits;
    AbsentNoPair(digits, 'f', 'e');
    NoPairAppend(prefix, digits, 'f', 'e');
    NoPairExcludes(prefix + digits, "fetch");
  }

  /** The text of the error for a response that is not `ok` is classified, online, as a server error. */
  lemma HttpTextIsServer(status: nat, statusMeansServer: bool)
    ensures Classify(true, JsError("Error", "HTTP error! status: " + DecimalString(status)), statusMeansServer) == Server
  {
    var prefix := "HTTP error! status: ";
    assert 'f' !in prefix;
    AbsentNoPair(prefix, 'f', 'e');
    StatusMessageAvoidsFetch(prefix, status);
    assert Contains(prefix, "HTTP error");
    ContainsExtended(prefix, DecimalString(status), "HTTP error");
  }

  /** While online, a response that is not `ok` is always reported as a server error. */
  lemma HttpErrorIsServer(status: nat, statusMeansServer: bool)
    ensures Classify(true, HttpError(status), statusMeansServer) == Server
  {
    HttpTextIsServer(status, statusMeansServer);
    assert HttpError(status) == JsError("Error", "HTTP error! status: " + DecimalString(status));
  }

  /** The fixed text of the delete status error has no "fe" in it. */
  lemma DeletePrefixAvoidsFe()
    ensures NoPair("Delete failed with status: ", 'f', 'e')
  {
    var head, f, tail := "Delete ", "f", "ailed with status: ";
    assert head + f + tail == "Delete failed with status: ";
    assert 'f' !in head && 'f' !in tail;
    AbsentNoPair(head, 'f', 'e');
    AbsentNoPair(tail, 'f', 'e');
    NoPairAppend(head, f, 'f', 'e');
    NoPairAppend(head + f, tail, 'f', 'e');
  }

  /** The fixed text of the delete status error names the status. */
  lemma DeletePrefixNamesStatus()
    ensures Contains("Delete failed with status: ", "status")
  {
    var head, marker := "Delete failed with ", "status: ";
    assert head + marker == "Delete failed with status: ";
    assert Contains(marker, "status");
    ContainsPrepended(head, marker, "status");
  }

  /** The text of the delete status error is classified, online, as a server error. */
  lemma DeleteStatusTextIsServer(status: nat)
    ensures Classify(true, JsError("Error", "Delete failed with status: " + DecimalString(status)), true) == Server
  {
    var prefix := "Delete failed with status: ";
    DeletePrefixAvoidsFe();
    DeletePrefixNamesStatus();
    StatusMessageAvoidsFetch(prefix, status);
    ContainsExtended(prefix, DecimalString(status), "status");
  }

  /** While online, a delete answered with any status but 200 is reported as a server error. */
  lemma DeleteStatusIsServer(status: nat)
    ensures Classify(true, DeleteStatusError(status), true) == Server
  {
    DeleteStatusTextIsServer(status);
    assert DeleteStatusError(status) == JsError("Error", "Delete failed with status: " + DecimalString(status));
  }
}
