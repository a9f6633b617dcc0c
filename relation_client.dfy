/** The client-relations widget: pick one of a fixed list of clients, type a
    message, and send it into a log of sent messages. */
module RelationClient {
  import opened Common

  datatype Client = Client(id: string, name: string, email: string, active: bool, lastPurchase: string)

  const Clients: seq<Client> := [
    Client("1", "Jean Dupont", "jean@email.com", true, "2 jours"),
    Client("2", "Marie Martin", "marie@email.com", false, "45 jours"),
    Client("3", "Pierre Bernard", "pierre@email.com", true, "1 jour"),
    Client("4", "Sophie Garcia", "sophie@email.com", false, "60 jours")
  ]

  /** One entry of the sent log: the client's name, the message as typed,
      and the local time of sending. */
  datatype SentMessage = SentMessage(client: string, msg: string, time: string)

  /** No client before position `k` has the id. */
  predicate FirstWithId(clients: seq<Client>, id: string, k: int)
    requires 0 <= k <= |clients|
  {
    forall j :: 0 <= j < k ==> clients[j].id != id
  }

  /** `clients.find(c => c.id === id)`: the first client with that id. */
  function FindClient(clients: seq<Client>, id: string): (r: Option<Client>)
    ensures r.None? <==> forall c :: c in clients ==> c.id != id
    ensures r.Some? ==> r.value.id == id && exists k :: 0 <= k < |clients| && clients[k] == r.value && FirstWithId(clients, id, k)
  {
    if clients == [] then None
    else if clients[0].id == id then Some(clients[0])
    else
      var r := FindClient(clients[1..], id);
      assert forall c :: c in clients[1..] ==> c in clients;
      if r.Some? then
        var k :| 0 <= k < |clients[1..]| && clients[1..][k] == r.value && FirstWithId(clients[1..], id, k);
        assert clients[k + 1] == r.value && FirstWithId(clients, id, k + 1);
        r
      else r
  }

  /** The four clients have four different ids, so each selection finds the
      client whose button was clicked. */
  lemma ClickedClientIsFound(k: int)
    requires 0 <= k < |Clients|
    ensures FindClient(Clients, Clients[k].id) == Some(Clients[k])
  {
    assert forall i, j :: 0 <= i < j < |Clients| ==> Clients[i].id != Clients[j].id;
  }

  class RelationClientWidget {
    var selectedClient: Option<string>
    var message: string
    var sentMessages: seq<SentMessage>

    constructor ()
      ensures selectedClient == None && message == "" && sentMessages == []
    {
      selectedClient, message, sentMessages := None, "", [];
    }

    /** The send button is enabled: a client is selected and the message is
        not blank. */
    predicate SendEnabled()
      reads this
    {
      Truthy(selectedClient) && !IsBlank(message)
    }

    /** The "Messages Envoyés" counter. */
    function SentCount(): nat
      reads this
    {
      |sentMessages|
    }

    /** A click on a client's button. */
    method SelectClient(id: string)
      modifies this
      ensures selectedClient == Some(id)
      ensures message == old(message) && sentMessages == old(sentMessages)
    {
      selectedClient := Some(id);
    }

    /** Typing in the message box. */
    method SetMessage(text: string)
      modifies this
      ensures message == text
      ensures selectedClient == old(selectedClient) && sentMessages == old(sentMessages)
    {
      message := text;
    }

    /** `handleSendMessage`, reached by the button or the Enter key; `time`
        is the current local time. With no selection, a blank message or an
        unknown client nothing changes; otherwise one entry naming the
        client and holding the untrimmed message is appended, and the input
        is cleared. */
    method SendMessage(time: string)
      modifies this
      ensures var found := if Truthy(old(selectedClient)) then FindClient(Clients, old(selectedClient).value) else None;
        if old(SendEnabled()) && found.Some? then
          && sentMessages == old(sentMessages) + [SentMessage(found.value.name, old(message), time)]
          && message == ""
        else
          sentMessages == old(sentMessages) && message == old(message)
      ensures selectedClient == old(selectedClient)
      ensures |sentMessages| == |old(sentMessages)| || |sentMessages| == |old(sentMessages)| + 1
      ensures sentMessages[..|old(sentMessages)|] == old(sentMessages)
    {
      if !Truthy(selectedClient) || IsBlank(message) {
        return;
      }
      var client := FindClient(Clients, selectedClient.value);
      if client.Some? {
        sentMessages := sentMessages + [SentMessage(client.value.name, message, time)];
        message := "";
      }
    }
  }

  /** Selecting a listed client and sending a non-blank message always logs
      it under that client's name. */
  method SendToListedClient(w: RelationClientWidget, k: int, text: string, time: string)
    requires 0 <= k < |Clients| && !IsBlank(text)
    modifies w
    ensures w.sentMessages == old(w.sentMessages) + [SentMessage(Clients[k].name, text, time)]
    ensures w.message == "" && w.SentCount() == old(w.SentCount()) + 1
  {
    w.SelectClient(Clients[k].id);
    w.SetMessage(text);
    ClickedClientIsFound(k);
    w.SendMessage(time);
  }
}
