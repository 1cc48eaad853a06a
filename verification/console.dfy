/**
 * The lines the scanner prints on the terminal, without colours or padding.
 * Logging output is not part of this model.
 */
module Console {

  datatype TermLine =
    | FoundLine(bucket: string)     // "[+] FOUND: <name>"
    | ErrorLine(bucket: string)     // "[!] ERROR: Check logs for bucket <name>"
    | ObjectsHeader                 // "└── Objects found:"
    | ObjectLine(key: string)       // "- <key>"
    | EmptyNotice                   // "└── Bucket is empty."
    | AccessDeniedNotice            // "└── Access Denied to list objects."
}
