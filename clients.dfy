/** The clients screen: a fixed list of clients, a search box over company name
    and contact person, and a client-type selector. */
module Clients {
  import opened Text
  import opened Views

  datatype ClientType = Retainer | Hourly | HourBank

  /** The string the source stores in `clientType`. */
  function TypeName(t: ClientType): string
  {
    match t
    case Retainer => "retainer"
    case Hourly => "hourly"
    case HourBank => "hour_bank"
  }

  datatype Client = Client(
    id: string,
    companyName: string,
    contactPerson: string,
    phone: string,
    email: string,
    address: string,
    clientType: ClientType,
    hourlyRate: Option<real>,
    services: seq<string>,
    createdAt: string)

  predicate MatchesSearch(c: Client, searchTerm: string)
  {
    Contains(Lower(c.companyName), Lower(searchTerm)) || Contains(Lower(c.contactPerson), Lower(searchTerm))
  }

  predicate MatchesType(c: Client, selectedType: string)
  {
    Selects(selectedType, TypeName(c.clientType))
  }

  function Keep(searchTerm: string, selectedType: string): Client -> bool
  {
    c => MatchesSearch(c, searchTerm) && MatchesType(c, selectedType)
  }

  /** `filteredClients`: the clients that match both the search and the type, in list order. */
  function FilteredClients(clients: seq<Client>, searchTerm: string, selectedType: string): (r: seq<Client>)
    ensures IsSubsequence(r, clients)
    ensures forall i :: 0 <= i < |r| ==> MatchesSearch(r[i], searchTerm) && MatchesType(r[i], selectedType)
    ensures forall i :: 0 <= i < |clients| && MatchesSearch(clients[i], searchTerm) && MatchesType(clients[i], selectedType)
              ==> clients[i] in r
    ensures forall x :: multiset(r)[x] == if MatchesSearch(x, searchTerm) && MatchesType(x, selectedType) then multiset(clients)[x] else 0
  {
    FilterIsSubsequence(clients, Keep(searchTerm, selectedType));
    FilterMultiplicity(clients, Keep(searchTerm, selectedType));
    Filter(clients, Keep(searchTerm, selectedType))
  }

  /** With no search term and the "all" type every client is shown, in order. */
  lemma EmptySearchShowsAll(clients: seq<Client>)
    ensures FilteredClients(clients, "", All) == clients
  {
    forall i | 0 <= i < |clients| ensures Keep("", All)(clients[i]) {
      EmptyOccursEverywhere(Lower(clients[i].companyName));
    }
    FilterKeepsAll(clients, Keep("", All));
  }

  /** Search ignores case: two terms with the same lower case select the same clients. */
  lemma SearchIgnoresCase(clients: seq<Client>, term1: string, term2: string, selectedType: string)
    requires Lower(term1) == Lower(term2)
    ensures FilteredClients(clients, term1, selectedType) == FilteredClients(clients, term2, selectedType)
  {
    FilterCongruent(clients, Keep(term1, selectedType), Keep(term2, selectedType));
  }

  /** A type selector that is neither "all" nor one of the three types shows nothing. */
  lemma UnknownTypeShowsNothing(clients: seq<Client>, searchTerm: string, selectedType: string)
    requires selectedType != All && selectedType != "retainer" && selectedType != "hourly" && selectedType != "hour_bank"
    ensures FilteredClients(clients, searchTerm, selectedType) == []
  {
  }

  /** The empty-state card appears iff no client passes the filter; its text and its
      add button depend only on whether a search term is typed. */
  lemma EmptyStateIffNoMatch(clients: seq<Client>, searchTerm: string, selectedType: string)
    ensures EmptyStateFor(|FilteredClients(clients, searchTerm, selectedType)|, searchTerm).EmptyCard?
            <==> forall i :: 0 <= i < |clients| ==> !(MatchesSearch(clients[i], searchTerm) && MatchesType(clients[i], selectedType))
  {
    EmptyCardIffNoneKept(clients, Keep(searchTerm, selectedType), searchTerm);
  }

  /** `getClientTypeText`: a Hebrew label for each known type; any other value is shown as is. */
  function ClientTypeText(clientType: string): (r: string)
    ensures clientType == "retainer" ==> r == "ריטיינר"
    ensures clientType == "hour_bank" ==> r == "בנק שעות"
    ensures clientType == "hourly" ==> r == "שעתי"
    ensures clientType != "retainer" && clientType != "hour_bank" && clientType != "hourly" ==> r == clientType
  {
    match clientType
    case "retainer" => "ריטיינר"
    case "hour_bank" => "בנק שעות"
    case "hourly" => "שעתי"
    case _ => clientType
  }

  /** The three known types get three different labels, none of them a raw type name. */
  lemma ClientTypeTextDistinguishes(t1: ClientType, t2: ClientType)
    ensures ClientTypeText(TypeName(t1)) == ClientTypeText(TypeName(t2)) <==> t1 == t2
    ensures ClientTypeText(TypeName(t1)) != TypeName(t2)
  {
  }

  const Client1: Client :=
    Client("1", "חברת טק סולושנס בע״מ", "דוד כהן", "03-1234567", "david@techsolutions.co.il",
           "רחוב הרצל 15, תל אביב", Retainer, None, ["Microsoft 365", "גיבוי ענן", "אנטי וירוס"], "2024-01-10")
  const Client2: Client :=
    Client("2", "משרד עורכי דין רוזן ושות׳", "שרה רוזן", "02-9876543", "sara@rozenlaw.co.il",
           "רחוב בן יהודה 8, ירושלים", HourBank, Some(350.0), ["Microsoft 365", "VPN"], "2024-01-05")
  const Client3: Client :=
    Client("3", "קליניקת השיניים ד״ר לוי", "ד״ר מיכל לוי", "09-5555555", "clinic@levy-dental.co.il",
           "רחוב וייצמן 42, נתניה", Hourly, Some(300.0), ["גיבוי ענן", "אנטי וירוס"], "2024-01-15")

  /** The three clients the screen is built with. */
  const SampleClients: seq<Client> := [Client1, Client2, Client3]

  const Rozen: string := "רוזן"

  /** A client whose two names lack a non-letter character of the term is not found. */
  lemma MissesWithoutChar(c: Client, searchTerm: string, ch: char)
    requires ch in searchTerm && !('A' <= ch <= 'Z') && !('a' <= ch <= 'z')
    requires ch !in c.companyName && ch !in c.contactPerson
    ensures !MatchesSearch(c, searchTerm)
  {
    NoOccurrenceWithoutChar(c.companyName, searchTerm, ch);
    NoOccurrenceWithoutChar(c.contactPerson, searchTerm, ch);
  }

  /** A client whose company name holds the term is found. */
  lemma HitsByCompanyName(c: Client, searchTerm: string, i: int)
    requires OccursAt(c.companyName, searchTerm, i)
    ensures MatchesSearch(c, searchTerm)
  {
    LowerKeepsOccurrence(c.companyName, searchTerm, i);
  }

  /** Client 1's names lack the letter zayin of "רוזן". */
  lemma SampleClient1Misses()
    ensures !MatchesSearch(Client1, Rozen)
  {
    MissesWithoutChar(Client1, Rozen, 'ז');
  }

  /** Client 2's company name holds "רוזן" at position 15. */
  lemma SampleClient2Hits()
    ensures MatchesSearch(Client2, Rozen)
  {
    HitsByCompanyName(Client2, Rozen, 15);
  }

  /** Client 3's names lack the letter zayin of "רוזן". */
  lemma SampleClient3Misses()
    ensures !MatchesSearch(Client3, Rozen)
  {
    MissesWithoutChar(Client3, Rozen, 'ז');
  }

  /** Searching "רוזן" with every type selected shows exactly the law firm, client 2. */
  lemma SampleSearchRozen()
    ensures FilteredClients(SampleClients, Rozen, All) == [Client2]
    ensures FilteredClients(SampleClients, Rozen, All)[0].id == "2"
  {
    var keep := Keep(Rozen, All);
    SampleClient1Misses();
    SampleClient2Hits();
    SampleClient3Misses();
    assert !keep(Client1) && keep(Client2) && !keep(Client3);
    assert Filter([Client3], keep) == [];
    assert Filter([Client2, Client3], keep) == [Client2];
    assert SampleClients[1..] == [Client2, Client3];
  }
}
