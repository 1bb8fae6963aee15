/** The live-detection endpoint of the demo server: a face count, then a
    basic anti-spoofing rule over the image's sharpness (variance of the
    Laplacian) and mean brightness, then a fixed simulated recognition.
    Face detection and the two image metrics are computed by the image
    library and enter as `Outcome` parameters. */
module LiveDetection {
  import opened Common

  datatype LiveStatus = NoFace | SpoofingDetected | LiveSuccess | LiveError

  datatype QualityMetrics = QualityMetrics(sharpness: real, brightness: real)

  /** The response dictionary; absent keys are `None`. */
  datatype LiveResponse = LiveResponse(
    recognized: bool, status: LiveStatus, message: Option<string>,
    livenessScore: Option<real>, spoofingDetected: Option<bool>, metrics: Option<QualityMetrics>,
    personId: Option<string>, personName: Option<string>, confidence: Option<real>,
    processingTime: Option<real>)

  const SharpnessFloor := 100.0
  const BrightnessFloor := 50.0
  const BrightnessCeiling := 200.0

  /** The rule chain: a blurred image is a spoof with liveness 0.2;
      otherwise a too dark or too bright image is a spoof with liveness
      0.3; otherwise the image is live with liveness 0.8. */
  function Verdict(m: QualityMetrics): (v: (bool, real))
    ensures v.0 <==> m.sharpness < SharpnessFloor || m.brightness < BrightnessFloor || m.brightness > BrightnessCeiling
    ensures m.sharpness < SharpnessFloor ==> v.1 == 0.2
    ensures m.sharpness >= SharpnessFloor && v.0 ==> v.1 == 0.3
    ensures !v.0 ==> v.1 == 0.8
  {
    if m.sharpness < SharpnessFloor then (true, 0.2)
    else if m.brightness < BrightnessFloor || m.brightness > BrightnessCeiling then (true, 0.3)
    else (false, 0.8)
  }

  /** `live_detection`. The `anti_spoofing` and `timestamp` form fields are
      accepted and never read. */
  function Detect(faces: Outcome<nat>, metrics: Outcome<QualityMetrics>, antiSpoofing: string): (r: LiveResponse)
    ensures faces.Raises? ==> r.status == LiveError && r.message == Some("Erro no processamento: " + faces.message)
    ensures faces.Answer? && faces.value > 0 && metrics.Raises? ==>
      r.status == LiveError && r.message == Some("Erro no processamento: " + metrics.message)
    ensures r.status == LiveError <==> faces.Raises? || (faces.Answer? && faces.value > 0 && metrics.Raises?)
    ensures faces == Answer(0) ==> r.status == NoFace && r.livenessScore == None && r.metrics == None
    ensures r.recognized <==> r.status == LiveSuccess
    ensures r.status == LiveSuccess <==>
      faces.Answer? && faces.value > 0 && metrics.Answer? && !Verdict(metrics.value).0
    ensures r.status == SpoofingDetected <==>
      faces.Answer? && faces.value > 0 && metrics.Answer? && Verdict(metrics.value).0
    ensures r.status in {SpoofingDetected, LiveSuccess} ==>
      r.livenessScore == Some(Verdict(metrics.value).1) && r.metrics == Some(metrics.value)
      && r.spoofingDetected == Some(r.status == SpoofingDetected)
  {
    match faces
    case Raises(m) => LiveResponse(false, LiveError, Some("Erro no processamento: " + m), None, None, None, None, None, None, None)
    case Answer(count) =>
      if count == 0 then
        LiveResponse(false, NoFace, Some("Nenhum rosto detectado"), None, None, None, None, None, None, None)
      else match metrics
        case Raises(m) => LiveResponse(false, LiveError, Some("Erro no processamento: " + m), None, None, None, None, None, None, None)
        case Answer(q) =>
          var (spoofed, liveness) := Verdict(q);
          if spoofed then
            LiveResponse(false, SpoofingDetected, Some("Poss\U{ED}vel tentativa de spoofing detectada"),
                         Some(liveness), Some(true), Some(q), None, None, None, None)
          else
            LiveResponse(true, LiveSuccess, None, Some(liveness), Some(false), Some(q),
                         Some("1"), Some("Usu\U{E1}rio Detectado"), Some(0.91), Some(0.5))
  }

  /** Without a face the quality rules are never consulted. */
  lemma NoFaceIgnoresMetrics(m1: Outcome<QualityMetrics>, m2: Outcome<QualityMetrics>, antiSpoofing: string)
    ensures Detect(Answer(0), m1, antiSpoofing) == Detect(Answer(0), m2, antiSpoofing)
  {
  }

  /** The rule is applied whatever the `anti_spoofing` field says. */
  lemma AntiSpoofingFlagIsIgnored(faces: Outcome<nat>, metrics: Outcome<QualityMetrics>, a: string, b: string)
    ensures Detect(faces, metrics, a) == Detect(faces, metrics, b)
  {
  }

  /** A sharp image at exactly the brightness bounds is accepted. */
  lemma BrightnessBoundsAreAccepted(sharpness: real, brightness: real)
    requires sharpness >= SharpnessFloor
    requires brightness == BrightnessFloor || brightness == BrightnessCeiling
    ensures Verdict(QualityMetrics(sharpness, brightness)) == (false, 0.8)
  {
  }
}
