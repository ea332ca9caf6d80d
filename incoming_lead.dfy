/** Submission of an incoming call as a new lead (incomingLead.go): a fail-fast
    chain of required-field checks, then a one-element `add` batch posted as JSON
    with the session's cookies, and the reply read by GetResponseID. */
module IncomingLead {
  import opened Wrappers
  import opened Client

  /** IncomingLead.IncomingLeadInfo: the call the lead comes from. */
  datatype IncomingLeadInfo = IncomingLeadInfo(
    to: string,
    from: string,
    dateCall: string,
    duration: string,
    link: string,
    serviceCode: string,
    uniq: string,
    addNote: string)

  /** An incoming lead: the call information, and the lead's other fields,
      which the submission passes on without looking at them. */
  datatype IncomingLead = IncomingLead(incomingLeadInfo: IncomingLeadInfo, otherFields: map<string, string>)

  /** IncomingLeadRequest: the batch body of the POST. */
  datatype IncomingLeadRequest = IncomingLeadRequest(add: seq<IncomingLead>)

  /** The HTTP exchange: the reply to a request, already decoded, or the
      failure of the exchange. */
  type Transport = Request<IncomingLeadRequest> -> Result<Decoded<RespID>, Error>

  /** The required fields of IncomingLeadInfo. */
  datatype FieldName = To | From | DateCall | Duration | Link | ServiceCode | Uniq | AddNote

  /** A required field: which one it is, and its value. */
  datatype Field = Field(name: FieldName, value: string)

  /** The required fields of the call, in the order they are checked. */
  function RequiredFields(info: IncomingLeadInfo): seq<Field>
  {
    [Field(To, info.to), Field(From, info.from), Field(DateCall, info.dateCall),
     Field(Duration, info.duration), Field(Link, info.link), Field(ServiceCode, info.serviceCode),
     Field(Uniq, info.uniq), Field(AddNote, info.addNote)]
  }

  /** The error text that reports an empty field. */
  function EmptyMessage(name: FieldName): string
  {
    match name
    case To => "IncomingLeadInfo.To is empty"
    case From => "IncomingLeadInfo.From is empty"
    case DateCall => "IncomingLeadInfo.DateCall is empty"
    case Duration => "IncomingLeadInfo.Duration is empty"
    case Link => "IncomingLeadInfo.Link is empty"
    case ServiceCode => "IncomingLeadInfo.ServiceCode is empty"
    case Uniq => "IncomingLeadInfo.Uniq is empty"
    case AddNote => "IncomingLeadInfo.AddNote is empty"
  }

  /** The name of the first empty field, if any field is empty. */
  function FirstEmpty(fields: seq<Field>): (r: Option<FieldName>)
    ensures r.None? <==> forall i :: 0 <= i < |fields| ==> fields[i].value != ""
    ensures r.Some? ==> exists k :: && 0 <= k < |fields| && fields[k].value == "" && fields[k].name == r.value
                                    && forall j :: 0 <= j < k ==> fields[j].value != ""
  {
    if |fields| == 0 then None
    else if fields[0].value == "" then Some(fields[0].name)
    else
      var r := FirstEmpty(fields[1..]);
      assert forall i :: 1 <= i < |fields| ==> fields[i] == fields[1..][i - 1];
      r
  }

  /** The guards of AddIncomingLeadCall as written, nine of them, the check of
      Duration twice: the error text of the first that fires, or None. */
  function Validate(info: IncomingLeadInfo): (r: Option<string>)
    ensures r.None? <==> && info.to != "" && info.from != "" && info.dateCall != "" && info.duration != ""
                         && info.link != "" && info.serviceCode != "" && info.uniq != "" && info.addNote != ""
  {
    if info.to == "" then Some("IncomingLeadInfo.To is empty")
    else if info.from == "" then Some("IncomingLeadInfo.From is empty")
    else if info.dateCall == "" then Some("IncomingLeadInfo.DateCall is empty")
    else if info.duration == "" then Some("IncomingLeadInfo.Duration is empty")
    else if info.duration == "" then Some("IncomingLeadInfo.Duration is empty")
    else if info.link == "" then Some("IncomingLeadInfo.Link is empty")
    else if info.serviceCode == "" then Some("IncomingLeadInfo.ServiceCode is empty")
    else if info.uniq == "" then Some("IncomingLeadInfo.Uniq is empty")
    else if info.addNote == "" then Some("IncomingLeadInfo.AddNote is empty")
    else None
  }

  /** The nine guards report the first empty required field: validation is
      fail-fast, in the order of RequiredFields. */
  lemma ValidateReportsAt(info: IncomingLeadInfo, k: int)
    requires 0 <= k < |RequiredFields(info)| && RequiredFields(info)[k].value == ""
    requires forall j :: 0 <= j < k ==> RequiredFields(info)[j].value != ""
    ensures Validate(info) == Some(EmptyMessage(RequiredFields(info)[k].name))
  {
    var fields := RequiredFields(info);
    assert fields[0].value == info.to && fields[1].value == info.from && fields[2].value == info.dateCall;
    assert fields[3].value == info.duration && fields[4].value == info.link && fields[5].value == info.serviceCode;
    assert fields[6].value == info.uniq && fields[7].value == info.addNote;
  }

  /** The nine guards agree with FirstEmpty over the eight required fields:
      the repeated Duration guard never fires, so dropping it changes no
      result. */
  lemma ValidateReportsFirstEmpty(info: IncomingLeadInfo)
    ensures Validate(info) == match FirstEmpty(RequiredFields(info))
                              case None => None
                              case Some(name) => Some(EmptyMessage(name))
  {
    var fields := RequiredFields(info);
    match FirstEmpty(fields)
    case None =>
      assert fields[0].value != "" && fields[1].value != "" && fields[2].value != "" && fields[3].value != "";
      assert fields[4].value != "" && fields[5].value != "" && fields[6].value != "" && fields[7].value != "";
    case Some(name) =>
      var k :| 0 <= k < |fields| && fields[k].value == "" && fields[k].name == name
               && forall j :: 0 <= j < k ==> fields[j].value != "";
      ValidateReportsAt(info, k);
  }

  /** AddIncomingLeadCall on client `c`: validate, post the one-element batch to
      the account URL followed by the `incomingleadsip` endpoint path, and read
      the reply with GetResponseID. Every error comes with id 0, and a call
      that succeeds passed validation. */
  function AddIncomingLeadCall(c: ClientInfo, lead: IncomingLead, env: Env, send: Transport): (r: IdResult)
    reads c
    ensures r.err.Some? ==> r.id == 0
    ensures r.err.None? ==> Validate(lead.incomingLeadInfo).None?
  {
    match Validate(lead.incomingLeadInfo)
    case Some(message) => IdResult(0, Some(Message(message)))
    case None =>
      var url := c.url + ApiUrl(env, "incomingleadsip");
      if !env.urlParses(url) then IdResult(0, Some(BadUrl(url)))
      else match send(PostRequest(c.cookies, url, IncomingLeadRequest([lead])))
        case Failure(e) => IdResult(0, Some(e))
        case Success(resp) => GetResponseID(resp)
  }

  /** An empty `To` is reported whatever the other fields hold. */
  lemma EmptyToRefused(c: ClientInfo, lead: IncomingLead, env: Env, send: Transport)
    requires lead.incomingLeadInfo.to == ""
    ensures AddIncomingLeadCall(c, lead, env, send) == IdResult(0, Some(Message("IncomingLeadInfo.To is empty")))
  {
  }

  /** The error names the first empty field in the order To, From, DateCall,
      Duration, Link, ServiceCode, Uniq, AddNote. */
  lemma ReportsFirstEmptyField(c: ClientInfo, lead: IncomingLead, env: Env, send: Transport, k: int)
    requires 0 <= k < |RequiredFields(lead.incomingLeadInfo)|
    requires RequiredFields(lead.incomingLeadInfo)[k].value == ""
    requires forall j :: 0 <= j < k ==> RequiredFields(lead.incomingLeadInfo)[j].value != ""
    ensures AddIncomingLeadCall(c, lead, env, send)
         == IdResult(0, Some(Message(EmptyMessage(RequiredFields(lead.incomingLeadInfo)[k].name))))
  {
    ValidateReportsAt(lead.incomingLeadInfo, k);
  }

  /** A lead with an empty required field is never sent: the result, an error
      with id 0, is the same whatever the transport and the endpoint table. */
  lemma InvalidLeadSendsNothing(c: ClientInfo, lead: IncomingLead, env1: Env, env2: Env,
                                send1: Transport, send2: Transport)
    requires exists i :: 0 <= i < |RequiredFields(lead.incomingLeadInfo)| && RequiredFields(lead.incomingLeadInfo)[i].value == ""
    ensures AddIncomingLeadCall(c, lead, env1, send1) == AddIncomingLeadCall(c, lead, env2, send2)
    ensures AddIncomingLeadCall(c, lead, env1, send1).id == 0
    ensures AddIncomingLeadCall(c, lead, env1, send1).err.Some?
  {
    ValidateReportsFirstEmpty(lead.incomingLeadInfo);
  }

  /** A lead whose required fields are all present is sent once, as a JSON POST
      carrying the session's cookies and the batch `add: [lead]`, to the account
      URL followed by the `incomingleadsip` path; a failed exchange is returned
      as is, and a reply is read by GetResponseID. */
  lemma ValidLeadIsPosted(c: ClientInfo, lead: IncomingLead, env: Env, send: Transport)
    requires forall i :: 0 <= i < |RequiredFields(lead.incomingLeadInfo)| ==> RequiredFields(lead.incomingLeadInfo)[i].value != ""
    ensures var url := c.url + ApiUrl(env, "incomingleadsip");
            var req := Request("POST", url, map[], map["Content-Type" := "application/json"], c.cookies,
                               Some(IncomingLeadRequest([lead])));
            (AddIncomingLeadCall(c, lead, env, send)
               == if !env.urlParses(url) then IdResult(0, Some(BadUrl(url)))
                  else match send(req)
                       case Failure(e) => IdResult(0, Some(e))
                       case Success(resp) => GetResponseID(resp))
  {
    ValidateReportsFirstEmpty(lead.incomingLeadInfo);
  }
}
