/** The drivers page: the badge variant shown for a driver's status. */
module Drivers {

  /** `getStatusVariant`. */
  function StatusVariant(status: string): (r: string)
    ensures r in {"default", "secondary", "outline"}
    ensures r == "default" <==> status == "Ativo"
    ensures r == "outline" <==> status == "Fora de serviço"
    ensures r == "secondary" <==> status != "Ativo" && status != "Fora de serviço"
  {
    match status
    case "Ativo" => "default"
    case "Em pausa" => "secondary"
    case "Fora de serviço" => "outline"
    case _ => "secondary"
  }

  /** The statuses the registration sheet lets the user pick. */
  const FormStatuses: seq<string> := ["Ativo", "Em pausa", "Indisponível"]

  /** Of the statuses a newly registered driver can have, only "Ativo" gets
      the filled badge, and none gets the outline one: "Indisponível" is not
      one of the statuses this page distinguishes and falls to the default
      case. */
  lemma FormStatusesVariants()
    ensures StatusVariant(FormStatuses[0]) == "default"
    ensures StatusVariant(FormStatuses[1]) == "secondary"
    ensures StatusVariant(FormStatuses[2]) == "secondary"
    ensures forall i :: 0 <= i < |FormStatuses| ==> StatusVariant(FormStatuses[i]) != "outline"
  {
  }
}
