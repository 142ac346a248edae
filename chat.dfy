/**
 * The deterministic helpers of the chat endpoint: naming the pharmacy behind
 * a result URL, pulling a medication name out of a user message, and deciding
 * whether a message triggers a price search or gets one of the canned replies.
 * The price search itself is a parameter.
 */
module Chat {
  import opened Common
  import opened Text

  /** `keys[i]` is the first key, in table order, that occurs in `s`. */
  predicate FirstMatchAt(s: string, keys: seq<string>, i: int) {
    0 <= i < |keys| && Contains(s, keys[i]) && forall j :: 0 <= j < i ==> !Contains(s, keys[j])
  }

  /** No key of the table occurs in `s`. */
  predicate NoMatch(s: string, keys: seq<string>) {
    forall j :: 0 <= j < |keys| ==> !Contains(s, keys[j])
  }

  /** The `for key in table: if key in s: return ...` scan, from position `from` on. */
  function FirstContainedFrom(s: string, keys: seq<string>, from: nat): (r: Option<nat>)
    requires from <= |keys|
    requires forall j :: 0 <= j < from ==> !Contains(s, keys[j])
    ensures r.Some? ==> FirstMatchAt(s, keys, r.value)
    ensures r.None? ==> NoMatch(s, keys)
    decreases |keys| - from
  {
    if from == |keys| then None
    else if Contains(s, keys[from]) then Some(from)
    else FirstContainedFrom(s, keys, from + 1)
  }

  function FirstContained(s: string, keys: seq<string>): (r: Option<nat>)
    ensures r.Some? ==> FirstMatchAt(s, keys, r.value)
    ensures r.None? ==> NoMatch(s, keys)
  {
    FirstContainedFrom(s, keys, 0)
  }

  /** At most one index can be the first match. */
  lemma FirstMatchUnique(s: string, keys: seq<string>, i: int, k: int)
    requires FirstMatchAt(s, keys, i) && FirstMatchAt(s, keys, k)
    ensures i == k
  {
  }

  // ---------------------------------------------------------------- pharmacy names

  /** The domain column of the pharmacy table, in its order. */
  const PharmacyDomains: seq<string> := [
    "goodrx.com", "walgreens.com", "cvs.com", "costco.com",
    "walmart.com", "pharmacychecker.com", "rite-aid.com", "kroger.com"
  ]

  /** The name column of the pharmacy table, row by row with `PharmacyDomains`. */
  const PharmacyNames: seq<string> := [
    "GoodRx", "Walgreens", "CVS Pharmacy", "Costco Pharmacy",
    "Walmart Pharmacy", "PharmacyChecker", "Rite Aid", "Kroger Pharmacy"
  ]

  const DefaultPharmacy: string := "Online Pharmacy"

  /** `extract_pharmacy_name`: the name of the first domain, in table order,
      that occurs in the URL, or "Online Pharmacy" when none does. */
  function ExtractPharmacyName(url: string): (r: string)
    ensures r == DefaultPharmacy || r in PharmacyNames
    ensures forall i :: 0 <= i < |PharmacyNames| ==>
      (r == PharmacyNames[i] <==> FirstMatchAt(url, PharmacyDomains, i))
    ensures r == DefaultPharmacy <==> NoMatch(url, PharmacyDomains)
  {
    match FirstContained(url, PharmacyDomains)
    case Some(i) =>
      assert forall k :: 0 <= k < |PharmacyNames| && k != i ==> PharmacyNames[k] != PharmacyNames[i];
      assert forall k :: FirstMatchAt(url, PharmacyDomains, k) ==> k == i by {
        forall k | FirstMatchAt(url, PharmacyDomains, k) ensures k == i {
          FirstMatchUnique(url, PharmacyDomains, i, k);
        }
      }
      PharmacyNames[i]
    case None =>
      DefaultPharmacy
  }

  // ---------------------------------------------------------------- medication names

  /** The medications recognised by name, in the order they are tried. */
  const CommonMedications: seq<string> := [
    "ibuprofen", "acetaminophen", "aspirin", "metformin", "lisinopril",
    "amlodipine", "metoprolol", "omeprazole", "simvastatin", "losartan",
    "gabapentin", "sertraline", "escitalopram", "fluoxetine", "alprazolam",
    "lorazepam", "prednisone", "amoxicillin", "azithromycin", "ciprofloxacin",
    "insulin", "levothyroxine", "atorvastatin", "hydrochlorothiazide"
  ]

  /** A word the fallback accepts as a possible medication name. */
  predicate IsCandidate(w: string) {
    |w| > 4 && AllAlpha(w)
  }

  /** `words[k]` is the first candidate word. */
  predicate FirstCandidateAt(words: seq<string>, k: int) {
    0 <= k < |words| && IsCandidate(words[k]) && forall j :: 0 <= j < k ==> !IsCandidate(words[j])
  }

  function FirstCandidateFrom(words: seq<string>, from: nat): (r: Option<nat>)
    requires from <= |words|
    requires forall j :: 0 <= j < from ==> !IsCandidate(words[j])
    ensures r.Some? ==> FirstCandidateAt(words, r.value)
    ensures r.None? ==> forall j :: 0 <= j < |words| ==> !IsCandidate(words[j])
    decreases |words| - from
  {
    if from == |words| then None
    else if IsCandidate(words[from]) then Some(from)
    else FirstCandidateFrom(words, from + 1)
  }

  /** `extract_medication_name_from_message` over a given list of known
      medications: the first listed medication found in the lower-cased
      message, title-cased; failing that, the first whitespace-separated word
      longer than four letters that is all letters, title-cased; failing that,
      nothing. */
  function ExtractNameWith(message: string, known: seq<string>): (r: Option<string>)
    ensures forall i :: FirstMatchAt(LowerStr(message), known, i) ==> r == Some(Title(known[i]))
    ensures NoMatch(LowerStr(message), known) ==>
      (r.Some? <==> exists w :: w in Split(message) && IsCandidate(w))
    ensures NoMatch(LowerStr(message), known) && r.Some? ==>
      exists k :: FirstCandidateAt(Split(message), k) && r.value == Title(Split(message)[k])
  {
    var lower := LowerStr(message);
    match FirstContained(lower, known)
    case Some(i) =>
      assert forall k :: FirstMatchAt(lower, known, k) ==> k == i by {
        forall k | FirstMatchAt(lower, known, k) ensures k == i {
          FirstMatchUnique(lower, known, i, k);
        }
      }
      Some(Title(known[i]))
    case None =>
      var words := Split(message);
      match FirstCandidateFrom(words, 0)
      case Some(k) => Some(Title(words[k]))
      case None => None
  }

  /** The function as the chat endpoint uses it, with its fixed list. */
  function ExtractMedicationName(message: string): (r: Option<string>)
    ensures forall i :: FirstMatchAt(LowerStr(message), CommonMedications, i) ==>
      r == Some(Title(CommonMedications[i]))
    ensures NoMatch(LowerStr(message), CommonMedications) ==>
      (r.Some? <==> exists w :: w in Split(message) && IsCandidate(w))
  {
    ExtractNameWith(message, CommonMedications)
  }

  /** A name found by the fallback scan is a word of more than four letters
      whose first letter is upper case and whose other letters are lower case. */
  lemma FallbackNameShape(message: string, known: seq<string>)
    requires NoMatch(LowerStr(message), known)
    requires ExtractNameWith(message, known).Some?
    ensures var name := ExtractNameWith(message, known).value;
      |name| > 4 && AllAlpha(name) && IsUpper(name[0]) &&
      forall i :: 1 <= i < |name| ==> IsLower(name[i])
  {
    var k :| FirstCandidateAt(Split(message), k) &&
      ExtractNameWith(message, known).value == Title(Split(message)[k]);
    TitleOfWord(Split(message)[k]);
  }

  // ---------------------------------------------------------------- chat classification

  /** Words that make a message a medication query. */
  const MedicationKeywords: seq<string> := [
    "price", "cost", "cheap", "affordable", "medication", "medicine",
    "prescription", "pharmacy", "drug", "pills", "tablets", "generic"
  ]

  /** `any(key in s for key in keys)` */
  predicate SomeKeyContained(s: string, keys: seq<string>) {
    exists k :: k in keys && Contains(s, k)
  }

  /** `any(keyword in message.lower() for keyword in medication_keywords)` */
  predicate IsMedicationQuery(message: string)
    ensures IsMedicationQuery(message) <==> SomeKeyOccurs(LowerStr(message), MedicationKeywords)
  {
    SomeKeyContainedIff(LowerStr(message), MedicationKeywords);
    SomeKeyContained(LowerStr(message), MedicationKeywords)
  }

  /** Some key of the list starts at some position of `s`. */
  ghost predicate SomeKeyOccurs(s: string, keys: seq<string>) {
    exists i, j :: 0 <= i < |keys| && OccursAt(s, keys[i], j)
  }

  /** Some key of a list is contained in `s` exactly when some key occurs
      at some position of `s`. */
  lemma SomeKeyContainedIff(s: string, keys: seq<string>)
    ensures SomeKeyContained(s, keys) <==> SomeKeyOccurs(s, keys)
  {
    if SomeKeyContained(s, keys) {
      var k :| k in keys && Contains(s, k);
      var i :| 0 <= i < |keys| && keys[i] == k;
      ContainsIff(s, k);
      var j :| OccursAt(s, k, j);
      assert OccursAt(s, keys[i], j);
    }
    if SomeKeyOccurs(s, keys) {
      var i, j :| 0 <= i < |keys| && OccursAt(s, keys[i], j);
      ContainsIff(s, keys[i]);
      assert keys[i] in keys && Contains(s, keys[i]);
    }
  }

  /** The keyword column of the general replies, in the order they are tried. */
  const GreetingKeywords: seq<string> := ["hello", "help", "thank"]

  /** The reply column of the general replies, row by row with `GreetingKeywords`. */
  const GreetingReplies: seq<string> := [
    "Hello! I'm here to help you find the best prices for medications. You can ask me about specific medications, compare prices across pharmacies, or get information about generic alternatives.",
    "I can help you find medication prices, compare costs across different pharmacies, and provide information about affordable options. Just tell me the name of the medication you're looking for!",
    "You're welcome! Feel free to ask if you need help finding prices for any other medications."
  ]

  const GreetingSuggestions: seq<string> := [
    "Search for a medication price", "Find pharmacies near me", "Compare generic vs brand name costs"
  ]

  const DefaultReply: string :=
    "I'm here to help you find the best medication prices. You can ask me about specific medications like 'What's the price of ibuprofen?' or 'Find cheap metformin near me.'"

  const DefaultSuggestions: seq<string> := [
    "Search for a medication price", "Find pharmacies near me", "Compare medication costs"
  ]

  const FoundSuggestions: seq<string> := [
    "Would you like to see more pharmacy options?",
    "Do you need information about generic alternatives?",
    "Would you like help finding pharmacies near you?"
  ]

  const NotFoundSuggestions: seq<string> := [
    "Try checking with your local pharmacy directly",
    "Contact your insurance provider for coverage information",
    "Ask your doctor about generic alternatives"
  ]

  const FoundOpening: string := "I found price information for "
  const FoundClosing: string := ". Here are the best prices I could find:"
  const NotFoundOpening: string := "I couldn't find specific pricing for "
  const NotFoundClosing: string :=
    " right now. This could be because it requires a prescription or the pricing varies significantly by location and insurance."

  function FoundReply(name: string): string {
    FoundOpening + name + FoundClosing
  }

  function NotFoundReply(name: string): string {
    NotFoundOpening + name + NotFoundClosing
  }

  /** The reply and suggestions for a message that is not searched for: those
      of the first greeting keyword in the lower-cased message, else the default. */
  function GeneralReply(lower: string): (r: (string, seq<string>))
    ensures forall i :: FirstMatchAt(lower, GreetingKeywords, i) ==> r == (GreetingReplies[i], GreetingSuggestions)
    ensures NoMatch(lower, GreetingKeywords) ==> r == (DefaultReply, DefaultSuggestions)
  {
    match FirstContained(lower, GreetingKeywords)
    case Some(i) =>
      assert forall k :: FirstMatchAt(lower, GreetingKeywords, k) ==> k == i by {
        forall k | FirstMatchAt(lower, GreetingKeywords, k) ensures k == i {
          FirstMatchUnique(lower, GreetingKeywords, i, k);
        }
      }
      (GreetingReplies[i], GreetingSuggestions)
    case None =>
      (DefaultReply, DefaultSuggestions)
  }

  /** `ChatResponse`; the price records are of the caller's type `P`. */
  datatype ChatResponse<P> = ChatResponse(
    response: string,
    medicationPrices: Option<seq<P>>,
    suggestions: seq<string>,
    searchPerformed: bool)

  /** `process_chat_message`, with the price search for a medication name as
      the parameter `search`. A message is searched for when it contains a
      medication keyword and a name can be extracted from it; otherwise the
      first greeting keyword it contains picks the reply, else the default. */
  function ProcessChatMessage<P>(message: string, search: string -> seq<P>): (r: ChatResponse<P>)
    ensures r.searchPerformed <==>
      IsMedicationQuery(message) && ExtractMedicationName(message).Some?
    ensures r.searchPerformed ==>
      var name := ExtractMedicationName(message).value;
      r.medicationPrices == Some(search(name)) &&
      (|search(name)| > 0 ==> r.response == FoundReply(name) && r.suggestions == FoundSuggestions) &&
      (|search(name)| == 0 ==> r.response == NotFoundReply(name) && r.suggestions == NotFoundSuggestions)
    ensures !r.searchPerformed ==> r.medicationPrices.None?
    ensures !r.searchPerformed ==> forall i :: FirstMatchAt(LowerStr(message), GreetingKeywords, i) ==>
      r.response == GreetingReplies[i] && r.suggestions == GreetingSuggestions
    ensures !r.searchPerformed && NoMatch(LowerStr(message), GreetingKeywords) ==>
      r.response == DefaultReply && r.suggestions == DefaultSuggestions
  {
    var name := ExtractMedicationName(message);
    if IsMedicationQuery(message) && name.Some? then
      var prices := search(name.value);
      if |prices| > 0 then
        ChatResponse(FoundReply(name.value), Some(prices), FoundSuggestions, true)
      else
        ChatResponse(NotFoundReply(name.value), Some([]), NotFoundSuggestions, true)
    else
      var (reply, suggestions) := GeneralReply(LowerStr(message));
      ChatResponse(reply, None, suggestions, false)
  }
}
