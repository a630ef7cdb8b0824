/** The movement list screen: the movements as fetched, the actions each
    status offers, and the status-change handler, which asks for permission,
    takes a proof photo, uploads it and, on HTTP 200, patches the local list. */
module Movements {
  import opened JsNumber
  import ListPatch

  datatype Place = Place(nome: string)
  datatype Item = Item(nome: string, imagem: string)
  datatype HistoryEntry = HistoryEntry(descricao: string, data: string)

  /** A movement as the list endpoint returns it; `status` is the wire string. */
  datatype Movement = Movement(
    id: int,
    origem: Place,
    destino: Place,
    produto: Item,
    quantidade: int,
    status: string,
    historico: seq<HistoryEntry>)

  /** Status strings the buttons test and send. */
  const Created := "created"
  const InTransit := "em transito"
  const Finished := "Coleta finalizada"
  /** The literal the handler compares with to choose the start endpoint. */
  const StartLiteral := "Em Trânsito"

  /** Driver name sent with every proof photo (fixed on this screen). */
  const DefaultMotorista := "Nome do Motorista"

  /** Target statuses of the action buttons rendered for `status`. */
  function OfferedActions(status: string): (r: seq<string>)
    ensures |r| <= 1
    ensures r == [InTransit] <==> status == Created
    ensures r == [Finished] <==> status == InTransit
    ensures r == [] <==> status != Created && status != InTransit
  {
    if status == Created then [InTransit]
    else if status == InTransit then [Finished]
    else []
  }

  /** PUT targets: `movements/{id}/start` and `movements/{id}/end`. */
  datatype Endpoint = Start(id: int) | End(id: int)

  /** Endpoint chosen for a requested status. */
  function EndpointFor(id: int, novoStatus: string): (e: Endpoint)
    ensures e.id == id
    ensures e.Start? <==> novoStatus == StartLiteral
  {
    if novoStatus == StartLiteral then Start(id) else End(id)
  }

  /** The list after a successful transition: `status := novoStatus` on every
      movement whose id matches, everything else as it was. */
  function PatchStatus(movs: seq<Movement>, id: int, novoStatus: string): (r: seq<Movement>)
    ensures |r| == |movs|
    ensures forall i :: 0 <= i < |movs| && movs[i].id == id ==> r[i] == movs[i].(status := novoStatus)
    ensures forall i :: 0 <= i < |movs| && movs[i].id != id ==> r[i] == movs[i]
  {
    ListPatch.Patch(movs, (m: Movement) => m.id == id, (m: Movement) => m.(status := novoStatus))
  }

  /** Outcomes of the calls the handler awaits. */
  datatype Permission = Granted | NotGranted | PermissionThrew
  datatype Capture = Cancelled | Photo(uri: string) | CameraThrew
  /** `Responded(code)` is the HTTP status the server answered with. The
      request's client rejects every status outside 200..299 (no custom status
      validation is configured), so such a code ends in the handler's catch. */
  datatype PutResponse = Responded(code: int) | PutThrew

  /** Statuses the HTTP client resolves with instead of rejecting. */
  predicate Resolves(code: int) {
    200 <= code < 300
  }

  datatype PutRequest = PutRequest(endpoint: Endpoint, photoUri: string, motorista: string)

  datatype Alert =
    | PermissionAlert
    | StatusChangedAlert(novoStatus: string)
    | StatusErrorAlert(novoStatus: string)
    | LoadErrorAlert

  /** Result of one status-change attempt. */
  datatype StatusStep = StatusStep(
    movements: seq<Movement>,
    cameraLaunched: bool,
    puts: seq<PutRequest>,
    alert: Option<Alert>)

  /** True when the attempt went through all three gates. */
  predicate Succeeded(permission: Permission, capture: Capture, response: PutResponse) {
    permission == Granted && capture.Photo? && response == Responded(200)
  }

  /** The status-change handler for movement `id` and target `novoStatus`. */
  function HandleStatusChange(
    movs: seq<Movement>, motorista: string, id: int, novoStatus: string,
    permission: Permission, capture: Capture, response: PutResponse): (r: StatusStep)
    ensures permission != Granted ==> !r.cameraLaunched && r.puts == [] && r.movements == movs
    ensures permission == NotGranted ==> r.alert == Some(PermissionAlert)
    ensures !capture.Photo? ==> r.puts == [] && r.movements == movs
    ensures |r.puts| <= 1
    ensures r.puts != [] <==> permission == Granted && capture.Photo?
    ensures r.puts != [] ==> r.puts[0] == PutRequest(EndpointFor(id, novoStatus), capture.uri, motorista)
    ensures Succeeded(permission, capture, response) ==> r.movements == PatchStatus(movs, id, novoStatus)
    ensures !Succeeded(permission, capture, response) ==> r.movements == movs
    ensures r.alert == Some(StatusChangedAlert(novoStatus)) <==> Succeeded(permission, capture, response)
    ensures r.alert == None <==>
      (permission == Granted
       && (capture == Cancelled || (capture.Photo? && response.Responded? && Resolves(response.code) && response.code != 200)))
    ensures permission == Granted ==> r.cameraLaunched
    ensures r.alert == Some(StatusErrorAlert(novoStatus)) <==>
      (permission == PermissionThrew
       || (permission == Granted
           && (capture == CameraThrew
               || (capture.Photo? && (response == PutThrew || (response.Responded? && !Resolves(response.code)))))))
  {
    match permission
    case PermissionThrew => StatusStep(movs, false, [], Some(StatusErrorAlert(novoStatus)))
    case NotGranted => StatusStep(movs, false, [], Some(PermissionAlert))
    case Granted =>
      match capture
      case CameraThrew => StatusStep(movs, true, [], Some(StatusErrorAlert(novoStatus)))
      case Cancelled => StatusStep(movs, true, [], None)
      case Photo(uri) =>
        var put := PutRequest(EndpointFor(id, novoStatus), uri, motorista);
        match response
        case PutThrew => StatusStep(movs, true, [put], Some(StatusErrorAlert(novoStatus)))
        case Responded(code) =>
          if !Resolves(code) then
            StatusStep(movs, true, [put], Some(StatusErrorAlert(novoStatus)))
          else if code == 200 then
            StatusStep(PatchStatus(movs, id, novoStatus), true, [put], Some(StatusChangedAlert(novoStatus)))
          else
            StatusStep(movs, true, [put], None)
  }

  /** After a photo is uploaded, a status outside 2xx is rejected by the client
      and shows the error alert; a 2xx other than 200 resolves but neither
      patches nor alerts. Only 200 patches. */
  lemma UploadStatusOutcomes(movs: seq<Movement>, motorista: string, id: int, novoStatus: string, uri: string, code: int)
    ensures var r := HandleStatusChange(movs, motorista, id, novoStatus, Granted, Photo(uri), Responded(code));
            (!Resolves(code) ==> r.movements == movs && r.alert == Some(StatusErrorAlert(novoStatus)))
            && (Resolves(code) && code != 200 ==> r.movements == movs && r.alert == None)
            && (code == 200 ==> r.movements == PatchStatus(movs, id, novoStatus))
  {
  }

  datatype FetchResponse = Fetched(data: seq<Movement>) | FetchThrew

  datatype Loaded = Loaded(movements: seq<Movement>, alert: Option<Alert>)

  /** Loading the list: a response replaces it, a failure keeps it and alerts. */
  function FetchMovements(movs: seq<Movement>, response: FetchResponse): (r: Loaded)
    ensures response.Fetched? ==> r.movements == response.data && r.alert == None
    ensures response.FetchThrew? ==> r.movements == movs && r.alert == Some(LoadErrorAlert)
  {
    match response
    case Fetched(data) => Loaded(data, None)
    case FetchThrew => Loaded(movs, Some(LoadErrorAlert))
  }

  /** Patching is idempotent: a repeated success changes nothing more. */
  lemma PatchStatusIdempotent(movs: seq<Movement>, id: int, s: string)
    ensures PatchStatus(PatchStatus(movs, id, s), id, s) == PatchStatus(movs, id, s)
  {
  }

  /** Patching an id that no movement carries leaves the list as it was. */
  lemma PatchAbsentId(movs: seq<Movement>, id: int, s: string)
    requires forall i :: 0 <= i < |movs| ==> movs[i].id != id
    ensures PatchStatus(movs, id, s) == movs
  {
  }

  /** The patch preserves the list's ids in order and every movement's
      content other than its status. */
  lemma PatchKeepsShape(movs: seq<Movement>, id: int, s: string, i: int)
    requires 0 <= i < |movs|
    ensures PatchStatus(movs, id, s)[i].id == movs[i].id
    ensures PatchStatus(movs, id, s)[i].(status := movs[i].status) == movs[i]
  {
  }

  /** Only a successful attempt changes the list, and then only statuses of
      movements carrying `id`, each to `novoStatus`. */
  lemma OnlySuccessChangesList(
    movs: seq<Movement>, motorista: string, id: int, novoStatus: string,
    permission: Permission, capture: Capture, response: PutResponse, i: int)
    requires 0 <= i < |movs|
    requires HandleStatusChange(movs, motorista, id, novoStatus, permission, capture, response).movements[i] != movs[i]
    ensures Succeeded(permission, capture, response)
    ensures movs[i].id == id && movs[i].status != novoStatus
    ensures HandleStatusChange(movs, motorista, id, novoStatus, permission, capture, response).movements[i].status == novoStatus
  {
  }

  /** The start button sends `'em transito'`, which is not the literal the
      handler compares with, so it uploads to the end endpoint. */
  lemma StartButtonTargetsEnd(id: int)
    ensures OfferedActions(Created) == [InTransit]
    ensures EndpointFor(id, OfferedActions(Created)[0]) == End(id)
  {
  }

  /** No rendered button ever reaches the start endpoint. */
  lemma NoButtonTargetsStart(status: string, id: int, a: string)
    requires a in OfferedActions(status)
    ensures EndpointFor(id, a).End?
  {
  }

  /** The endpoint choice the lifecycle calls for: compare with the status the
      start button actually sends. */
  function IntendedEndpointFor(id: int, novoStatus: string): (e: Endpoint)
    ensures e.id == id
    ensures e.Start? <==> novoStatus == InTransit
  {
    if novoStatus == InTransit then Start(id) else End(id)
  }

  /** With the intended comparison, the button offered in `created` uploads to
      the start endpoint and the one offered in `em transito` to the end
      endpoint; the choice differs from the one written exactly on the start
      button. */
  lemma IntendedButtonsReachTheirEndpoints(id: int)
    ensures IntendedEndpointFor(id, OfferedActions(Created)[0]) == Start(id)
    ensures IntendedEndpointFor(id, OfferedActions(InTransit)[0]) == End(id)
    ensures IntendedEndpointFor(id, OfferedActions(Created)[0]) != EndpointFor(id, OfferedActions(Created)[0])
    ensures IntendedEndpointFor(id, OfferedActions(InTransit)[0]) == EndpointFor(id, OfferedActions(InTransit)[0])
  {
  }

  /** Position of a status in the lifecycle; 3 for strings outside it. */
  function Stage(status: string): nat {
    if status == Created then 0 else if status == InTransit then 1 else if status == Finished then 2 else 3
  }

  /** Every offered action moves one stage forward: no skipping, no going
      back, and the finished status offers nothing. */
  lemma OfferedActionsAdvance(status: string, a: string)
    requires a in OfferedActions(status)
    ensures Stage(a) == Stage(status) + 1
    ensures Stage(a) <= 2
  {
  }

  lemma FinishedIsTerminal()
    ensures OfferedActions(Finished) == []
  {
  }

  /** A movement whose status is set by pressing its offered button and
      succeeding then offers exactly the next button of the lifecycle. */
  lemma SuccessAdvancesLifecycle(
    movs: seq<Movement>, motorista: string, i: int, uri: string)
    requires 0 <= i < |movs|
    requires OfferedActions(movs[i].status) != []
    ensures var a := OfferedActions(movs[i].status)[0];
            var r := HandleStatusChange(movs, motorista, movs[i].id, a, Granted, Photo(uri), Responded(200));
            Stage(r.movements[i].status) == Stage(movs[i].status) + 1
            && (movs[i].status == Created ==> OfferedActions(r.movements[i].status) == [Finished])
            && (movs[i].status == InTransit ==> OfferedActions(r.movements[i].status) == [])
  {
  }

  /** Worked scenario with the literals as written: movement 7 in
      `created`, start pressed, all gates pass. The movement shows
      `em transito` and offers only the finish button, but the upload went to
      `movements/7/end`. With permission refused nothing is sent. */
  lemma StartScenario(m: Movement, uri: string)
    requires m.id == 7 && m.status == Created
    ensures var r := HandleStatusChange([m], DefaultMotorista, 7, InTransit, Granted, Photo(uri), Responded(200));
            r.movements == [m.(status := InTransit)]
            && OfferedActions(r.movements[0].status) == [Finished]
            && r.puts == [PutRequest(End(7), uri, DefaultMotorista)]
    ensures var r := HandleStatusChange([m], DefaultMotorista, 7, InTransit, NotGranted, Photo(uri), Responded(200));
            r.movements == [m] && r.puts == [] && !r.cameraLaunched && r.alert == Some(PermissionAlert)
  {
  }
}
