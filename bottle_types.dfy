/**
 * The message entity the app stores and the engine reads (src/types/Bottle.ts).
 * Instants are milliseconds since the Unix epoch; ids are opaque strings.
 */
module BottleTypes {

  datatype MediaAttachment = MediaAttachment(
    id: string,
    name: string,
    mimeType: string,
    data: string,
    size: int)

  datatype Bottle = Bottle(
    id: string,
    title: string,
    message: string,
    attachments: seq<MediaAttachment>,
    createdAt: int,
    unlockDate: int,
    isUnlocked: bool,
    delayDays: int)
}
