/** Treatment advice for a disease label: the remote reply when the
    device is online and the reply is usable, otherwise the fixed local
    table, otherwise a generic "no information" record. */
module Treatments {

  import opened Wrappers

  datatype Treatment = Treatment(prevention: seq<string>, organic: seq<string>, chemical: seq<string>)

  datatype TreatmentInfo = TreatmentInfo(description: string, treatment: Treatment)

  /** The local treatment table used when the remote source is skipped. */
  const LocalTreatments: map<string, TreatmentInfo> := map[
    "Tomato___Bacterial_spot" := TreatmentInfo(
      "Caused by Xanthomonas bacteria, appears as small water-soaked spots",
      Treatment(
        ["Use disease-free seeds", "Practice crop rotation (2-3 years)", "Avoid overhead watering"],
        ["Copper-based fungicides", "Bacillus subtilis products"],
        ["Streptomycin sulfate (limited availability)", "Copper hydroxide"])),
    "Tomato___Early_blight" := TreatmentInfo(
      "Fungal disease causing concentric rings on leaves",
      Treatment(
        ["Remove infected plant debris", "Ensure proper plant spacing"],
        ["Copper fungicides", "Baking soda sprays (1 tbsp/gallon)"],
        ["Chlorothalonil", "Mancozeb"])),
    "Tomato___healthy" := TreatmentInfo(
      "No disease detected",
      Treatment(
        ["Maintain good growing conditions", "Regularly inspect plants"],
        [],
        []))
  ]

  /** The record returned for a label the local table does not know. */
  const GenericInfo := TreatmentInfo(
    "No information available for this disease",
    Treatment(["Consult local agricultural extension officer"], [], []))

  /** What the remote fetch produced: it raised (timeout, connection
      error), or it answered with a status code and a body that did or did
      not parse as JSON. */
  datatype RemoteReply =
    | NoResponse
    | Response(status: int, json: Option<TreatmentInfo>)

  /** The remote reply is used only when the probe said online, the
      status is 200 and the body parsed. */
  predicate RemoteUsable(online: bool, reply: RemoteReply)
  {
    online && reply.Response? && reply.status == 200 && reply.json.Some?
  }

  /** The local table with the generic record as default. */
  function LocalLookup(diseaseName: string): (info: TreatmentInfo)
    ensures diseaseName in LocalTreatments ==> info == LocalTreatments[diseaseName]
    ensures diseaseName !in LocalTreatments ==> info == GenericInfo
    ensures |info.treatment.prevention| >= 1
  {
    if diseaseName in LocalTreatments then LocalTreatments[diseaseName] else GenericInfo
  }

  /** Treatment advice for `diseaseName`. `online` is the connectivity
      probe's answer and `reply` what the remote fetch produced; the reply
      is not consulted when offline. */
  function GetTreatmentInfo(diseaseName: string, online: bool, reply: RemoteReply): (info: TreatmentInfo)
    ensures RemoteUsable(online, reply) ==> info == reply.json.value
    ensures !RemoteUsable(online, reply) ==> info == LocalLookup(diseaseName)
    ensures !online ==> (info.description != GenericInfo.description <==> diseaseName in LocalTreatments)
  {
    if RemoteUsable(online, reply) then reply.json.value
    else LocalLookup(diseaseName)
  }

  /** The fallback does not depend on why the remote source was skipped:
      offline, a failed request, a non-200 status and an unparsable body
      all give what the offline lookup gives. */
  lemma FallbackIndependentOfCause(diseaseName: string, online: bool, reply: RemoteReply, other: RemoteReply)
    requires !RemoteUsable(online, reply)
    ensures GetTreatmentInfo(diseaseName, online, reply) == GetTreatmentInfo(diseaseName, false, other)
  {
  }

  /** An unknown label, offline: one prevention tip pointing to an
      extension officer, and no organic or chemical treatments. */
  lemma UnknownLabelGetsGenericRecord(diseaseName: string, reply: RemoteReply)
    requires diseaseName !in LocalTreatments
    ensures var info := GetTreatmentInfo(diseaseName, false, reply);
      && |info.treatment.prevention| == 1
      && info.treatment.prevention[0] == "Consult local agricultural extension officer"
      && info.treatment.organic == []
      && info.treatment.chemical == []
  {
  }
}
