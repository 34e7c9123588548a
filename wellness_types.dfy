/** The wellness-plan records of types.ts, as the AI returns them and the pages
    read them. */
module WellnessTypes {

  datatype WellnessActivity = WellnessActivity(
    name: string,
    description: string,
    duration: string,
    instructions: seq<string>)

  datatype WellnessSection = WellnessSection(
    title: string,
    description: string,
    activities: seq<WellnessActivity>)

  datatype WellnessPlan = WellnessPlan(
    mentalWellness: WellnessSection,
    physicalWellness: WellnessSection,
    digitalWellness: WellnessSection,
    summary: string)
}
